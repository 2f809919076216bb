/*
 * The localized command menus (src/bot/commands.py) that the private
 * language handler installs.
 */
module BotCommands {
  /** A menu entry: the command without its slash and its description. */
  datatype BotCommand = BotCommand(command: string, description: string)

  /** PRIVATE_COMMANDS: the private-chat menu per language. */
  const PrivateCommands: map<string, seq<BotCommand>> := map[
    "en" := [
      BotCommand("start", "Start / Show info"),
      BotCommand("key", "Configure Pushover key"),
      BotCommand("list", "List groups with notifications"),
      BotCommand("test_alarm", "Send test alarm"),
      BotCommand("language", "Change language"),
      BotCommand("help", "Show help")],
    "ru" := [
      BotCommand("start", "Начать / Показать информацию"),
      BotCommand("key", "Настроить Pushover ключ"),
      BotCommand("list", "Список групп с уведомлениями"),
      BotCommand("test_alarm", "Тестовая сирена"),
      BotCommand("language", "Сменить язык"),
      BotCommand("help", "Справка")],
    "uk" := [
      BotCommand("start", "Почати / Показати інформацію"),
      BotCommand("key", "Налаштувати Pushover ключ"),
      BotCommand("list", "Список груп зі сповіщеннями"),
      BotCommand("test_alarm", "Тестова сирена"),
      BotCommand("language", "Змінити мову"),
      BotCommand("help", "Допомога")]]

  /** ADMIN_COMMANDS: appended to the private menu of an administrator. */
  const AdminCommands: seq<BotCommand> := [
    BotCommand("broadcast", "Send broadcast to all users"),
    BotCommand("stats", "Show bot statistics")]

  /** The command names of a menu, in order. */
  function Names(menu: seq<BotCommand>): (names: seq<string>)
    ensures |names| == |menu|
    ensures forall k :: 0 <= k < |menu| ==> names[k] == menu[k].command
  {
    if menu == [] then [] else [menu[0].command] + Names(menu[1..])
  }

  /** Every language offers the same commands in the same order; only the descriptions differ. */
  lemma SameCommandsInEveryLanguage(lang: string)
    requires lang in PrivateCommands
    ensures Names(PrivateCommands[lang]) == Names(PrivateCommands["en"])
  {
    var names := ["start", "key", "list", "test_alarm", "language", "help"];
    MenuNames("en", names);
    MenuNames(lang, names);
  }

  /** No language's private menu already holds an administrator command. */
  lemma AdminCommandsNotInMenu(lang: string, k: nat)
    requires lang in PrivateCommands && k < |AdminCommands|
    ensures AdminCommands[k].command !in Names(PrivateCommands[lang])
  {
    MenuNames(lang, ["start", "key", "list", "test_alarm", "language", "help"]);
    AdminNameNotAmong(AdminCommands[k].command);
  }

  lemma AdminNameNotAmong(c: string)
    requires c == "broadcast" || c == "stats"
    ensures c !in ["start", "key", "list", "test_alarm", "language", "help"]
  {
    var names := ["start", "key", "list", "test_alarm", "language", "help"];
    assert |c| == 9 || (|c| == 5 && c[3] == 't');
    assert forall j :: 0 <= j < |names| ==> |names[j]| != 9 && (|names[j]| == 5 ==> names[j][3] != 't');
  }

  lemma MenuNames(lang: string, names: seq<string>)
    requires lang in PrivateCommands && names == ["start", "key", "list", "test_alarm", "language", "help"]
    ensures Names(PrivateCommands[lang]) == names
  {
    var menu := PrivateCommands[lang];
    assert |menu| == 6;
    assert forall k :: 0 <= k < 6 ==> menu[k].command == names[k];
  }
}
