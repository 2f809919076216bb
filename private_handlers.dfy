/*
 * The private-chat handlers (src/bot/handlers/private.py): the key set-up
 * dialogue, the list of the user's groups and the language choice. A
 * handler's answers are appended to the chat's answer list.
 */
module PrivateHandlers {
  import opened Common
  import opened Db
  import U = UserRepository
  import S = SubscriptionRepository
  import N = Notification
  import K = UiKeyboards
  import IK = InlineKeyboards
  import opened BotCommands

  // ---------------------------------------------------------------------
  // The key format
  // ---------------------------------------------------------------------

  /** [a-zA-Z0-9]: an ASCII letter or digit. */
  predicate IsKeyChar(c: char) {
    ('a' <= c <= 'z') || ('A' <= c <= 'Z') || ('0' <= c <= '9')
  }

  /** A Pushover user key: exactly 30 ASCII letters or digits. */
  predicate WellFormedKey(key: string) {
    |key| == 30 && forall i :: 0 <= i < |key| ==> IsKeyChar(key[i])
  }

  /**
   * re.match(r"^[a-zA-Z0-9]{30}$", s): thirty key characters at the start,
   * then the end of the text or a final newline, which Python's `$` also
   * accepts.
   */
  predicate KeyPatternMatches(s: string) {
    (|s| == 30 || (|s| == 31 && s[30] == '\n'))
    && forall i :: 0 <= i < 30 ==> IsKeyChar(s[i])
  }

  /** On stripped text the pattern accepts exactly the well-formed keys. */
  lemma StrippedKeyPattern(text: string)
    ensures KeyPatternMatches(Strip(text)) <==> WellFormedKey(Strip(text))
  {
    var key := Strip(text);
    StripSpec(text);
    if |key| == 31 {
      assert IsSpace('\n');
    }
  }

  /** A well-formed key is not blank, so a user who saved one counts as having a key. */
  lemma SavedKeyCounts(users: map<int, UserRow>, userId: int, key: string)
    requires userId in users && WellFormedKey(key)
    ensures N.HasKey(U.WithKey(users, userId, key), userId)
    ensures U.WithKey(users, userId, key)[userId].pushoverKey == Some(key)
  {
  }

  /** A well-formed key pasted with no surrounding whitespace passes the pattern unchanged. */
  lemma WellFormedKeyAccepted(key: string)
    requires WellFormedKey(key)
    ensures Strip(key) == key && KeyPatternMatches(Strip(key))
  {
    assert !IsSpace(key[0]) && !IsSpace(key[29]) by {
      assert IsKeyChar(key[0]) && IsKeyChar(key[29]);
    }
    StripKeeps(key);
  }

  // ---------------------------------------------------------------------
  // The private chat
  // ---------------------------------------------------------------------

  /** An answer sent to the user, by localisation key. */
  datatype Answer =
    | Says(key: string)
    | KeyUpdatedExisting(count: nat)            // key_updated_existing
    | GroupList(markup: K.Markup)               // list_header with the groups keyboard
    | LanguageChanged(language: string)         // language_changed in the new language

  /** The reply once a key is saved: key_updated_existing when the user already has active groups. */
  function KeySavedAnswer(activeCount: nat): (a: Answer)
    ensures a.KeyUpdatedExisting? <==> activeCount > 0
    ensures a.KeyUpdatedExisting? ==> a.count == activeCount
    ensures !a.KeyUpdatedExisting? ==> a == Says("key_saved")
  {
    if activeCount > 0 then KeyUpdatedExisting(activeCount) else Says("key_saved")
  }

  /** pushover_client.validate_user_key: the Pushover API's answer, and the keys asked about. */
  class KeyValidator {
    const accepts: string -> bool
    var asked: seq<string>

    constructor (accepts: string -> bool)
      ensures this.accepts == accepts && asked == []
    {
      this.accepts := accepts;
      asked := [];
    }

    method Validate(key: string) returns (valid: bool)
      modifies this`asked
      ensures asked == old(asked) + [key]
      ensures valid == accepts(key)
    {
      asked := asked + [key];
      valid := accepts(key);
    }
  }

  /** A user's private chat: the key dialogue's state, the answers and the installed command menu. */
  class PrivateChat {
    var waitingForKey: bool
    var answers: seq<Answer>
    var menu: Option<seq<BotCommand>>

    constructor ()
      ensures !waitingForKey && answers == [] && menu.None?
    {
      waitingForKey := false;
      answers := [];
      menu := None;
    }

    method Answer(a: Answer)
      modifies this`answers
      ensures answers == old(answers) + [a]
    {
      answers := answers + [a];
    }
  }

  /** cmd_key: enter the key dialogue and prompt for the key. */
  method CmdKey(chat: PrivateChat)
    modifies chat
    ensures chat.waitingForKey && chat.menu == old(chat.menu)
    ensures chat.answers == old(chat.answers) + [Says("key_prompt")]
  {
    chat.waitingForKey := true;
    chat.Answer(Says("key_prompt"));
  }

  /** cmd_cancel_key and cancel_key_setup: leave the dialogue and say so. */
  method CancelKey(chat: PrivateChat)
    requires chat.waitingForKey
    modifies chat
    ensures !chat.waitingForKey && chat.menu == old(chat.menu)
    ensures chat.answers == old(chat.answers) + [Says("key_cancelled")]
  {
    chat.waitingForKey := false;
    chat.Answer(Says("key_cancelled"));
  }

  /**
   * process_key: the stripped text must match the key pattern before the
   * Pushover API is asked; only a key that passes both is stored, and only
   * then does the dialogue end. The reply then depends on whether the user
   * already has active groups.
   */
  method ProcessKey(db: Database, chat: PrivateChat, validator: KeyValidator, userId: int, text: string)
    requires chat.waitingForKey && !StartsWith(text, "/")
    modifies db`users, chat, validator`asked
    ensures var key := Strip(text);
      && (!WellFormedKey(key) ==>
            && chat.answers == old(chat.answers) + [Says("key_invalid")]
            && validator.asked == old(validator.asked) && db.users == old(db.users) && chat.waitingForKey)
      && (WellFormedKey(key) ==> validator.asked == old(validator.asked) + [key])
      && (WellFormedKey(key) && !validator.accepts(key) ==>
            && chat.answers == old(chat.answers) + [Says("key_validation_failed")]
            && db.users == old(db.users) && chat.waitingForKey)
      && (WellFormedKey(key) && validator.accepts(key) ==>
            && db.users == U.WithKey(old(db.users), userId, key)
            && !chat.waitingForKey
            && chat.answers == old(chat.answers) + [KeySavedAnswer(S.ActiveSubscriptionCount(db.subscriptions, userId))])
    ensures chat.menu == old(chat.menu)
  {
    var key := Strip(text);
    StrippedKeyPattern(text);
    if !KeyPatternMatches(key) {
      chat.Answer(Says("key_invalid"));
      return;
    }
    var valid := validator.Validate(key);
    if !valid {
      chat.Answer(Says("key_validation_failed"));
      return;
    }
    U.SetPushoverKey(db, userId, key);
    chat.waitingForKey := false;
    var count := S.ActiveSubscriptionCount(db.subscriptions, userId);
    if count > 0 {
      chat.Answer(KeyUpdatedExisting(count));
    } else {
      chat.Answer(Says("key_saved"));
    }
  }

  // ---------------------------------------------------------------------
  // /list
  // ---------------------------------------------------------------------

  /** `title or f"ID: {group_id}"`: a NULL or empty title falls back to the id. */
  function ShownTitle(groupId: int, title: Option<string>): (t: string)
    ensures t != ""
    ensures title.Some? && title.value != "" ==> t == title.value
    ensures title.None? || title.value == "" ==> StartsWith(t, "ID: ") && ParseInt(t[4..]) == Some(groupId)
  {
    if title.Some? && title.value != "" then title.value
    else
      var t := "ID: " + IntToString(groupId);
      assert t[4..] == IntToString(groupId);
      IntToStringParses(groupId);
      t
  }

  /** cmd_list's normalized_groups: ids, flags and order kept, every title shown non-empty. */
  function NormalizedGroups(groups: seq<(int, Option<string>, bool)>): (r: seq<(int, string, bool)>)
    ensures |r| == |groups|
    ensures forall k :: 0 <= k < |groups| ==> r[k].0 == groups[k].0 && r[k].2 == groups[k].2 && r[k].1 != ""
    ensures forall k :: 0 <= k < |groups| && groups[k].1.Some? && groups[k].1.value != "" ==> r[k].1 == groups[k].1.value
  {
    if groups == [] then []
    else [(groups[0].0, ShownTitle(groups[0].0, groups[0].1), groups[0].2)] + NormalizedGroups(groups[1..])
  }

  /** cmd_list: list_empty when the user has no enabled group, otherwise the header with one button per group. */
  method CmdList(db: Database, chat: PrivateChat, userId: int)
    modifies chat`answers
    ensures var groups := S.UserGroups(db.subscriptions, db.groups, userId);
      && (groups == [] ==> chat.answers == old(chat.answers) + [Says("list_empty")])
      && (groups != [] ==>
            && |chat.answers| == |old(chat.answers)| + 1 && chat.answers[..|old(chat.answers)|] == old(chat.answers)
            && var last := chat.answers[|chat.answers| - 1];
               last.GroupList? && |last.markup| == |groups|
               && forall k :: 0 <= k < |groups| ==>
                    last.markup[k] == [IK.GroupButton(groups[k].0, NormalizedGroups(groups)[k].1, groups[k].2)])
  {
    var groups := S.UserGroups(db.subscriptions, db.groups, userId);
    if groups == [] {
      chat.Answer(Says("list_empty"));
      return;
    }
    var markup := IK.GroupsKeyboard(NormalizedGroups(groups));
    chat.Answer(GroupList(markup));
  }

  // ---------------------------------------------------------------------
  // Language choice
  // ---------------------------------------------------------------------

  /** The menu for a language: the "en" menu for an unknown one, ADMIN_COMMANDS appended for an administrator. */
  function MenuFor(language: string, userId: int, adminIds: seq<int>): (menu: seq<BotCommand>)
    ensures var base := if language in PrivateCommands then PrivateCommands[language] else PrivateCommands["en"];
      && |menu| >= |base| && menu[..|base|] == base
      && (userId in adminIds ==> menu[|base|..] == AdminCommands)
      && (userId !in adminIds ==> menu == base)
  {
    var base := if language in PrivateCommands then PrivateCommands[language] else PrivateCommands["en"];
    if userId in adminIds then base + AdminCommands else base
  }

  /** Administrators, and only they, get the administrator commands, whatever the language. */
  lemma AdminMenuOnlyForAdmins(language: string, userId: int, adminIds: seq<int>)
    ensures "broadcast" in Names(MenuFor(language, userId, adminIds)) <==> userId in adminIds
    ensures Names(MenuFor(language, userId, adminIds))[..6] == Names(PrivateCommands["en"])
  {
    var lang := if language in PrivateCommands then language else "en";
    var base := PrivateCommands[lang];
    var menu := MenuFor(language, userId, adminIds);
    SameCommandsInEveryLanguage(lang);
    AdminCommandsNotInMenu(lang, 0);
    assert AdminCommands[0].command == "broadcast";
    var names := Names(menu);
    assert |base| == 6;
    assert names[..6] == Names(base) by {
      forall k | 0 <= k < 6 ensures names[..6][k] == Names(base)[k] {
        assert menu[k] == base[k];
      }
    }
    if userId in adminIds {
      assert menu[6] == AdminCommands[0];
      assert names[6] == "broadcast";
    } else {
      assert menu == base;
    }
  }

  /**
   * process_language: store the language from the "lang:..." callback,
   * install that language's menu in the user's chat, and answer in the new
   * language.
   */
  method ProcessLanguage(db: Database, chat: PrivateChat, userId: int, data: string, adminIds: seq<int>)
    requires StartsWith(data, "lang:")
    modifies db`users, chat`menu, chat`answers
    ensures var language := IK.CallbackLanguage(data);
      && db.users == U.WithLanguage(old(db.users), userId, language)
      && chat.menu == Some(MenuFor(language, userId, adminIds))
      && chat.answers == old(chat.answers) + [LanguageChanged(language)]
  {
    var language := IK.CallbackLanguage(data);
    U.SetLanguage(db, userId, language);
    chat.menu := Some(MenuFor(language, userId, adminIds));
    chat.Answer(LanguageChanged(language));
  }

  /** Choosing a language from the picker stores it: get_language reads back the button's language. */
  lemma PickerChoiceStored(users: map<int, UserRow>, userId: int, k: nat)
    requires userId in users && k < |IK.PickerLanguages|
    ensures var data := IK.LanguageKeyboard()[0][k].callbackData.value;
      StartsWith(data, "lang:")
      && U.GetLanguage(U.WithLanguage(users, userId, IK.CallbackLanguage(data)), userId) == IK.PickerLanguages[k]
      && IK.CallbackLanguage(data) in PrivateCommands
  {
    IK.LanguageButtonsSelect(k);
    U.LanguageRoundTrip(users, userId, IK.PickerLanguages[k], userId);
  }
}
