/*
 * The bot's own inline keyboards (src/bot/keyboards/inline.py): the
 * language picker, the cancel button and the list of a user's groups.
 */
module InlineKeyboards {
  import opened Common
  import opened UiKeyboards

  /** The languages the picker offers, in button order. */
  const PickerLanguages: seq<string> := ["ru", "uk", "en"]

  /** get_language_keyboard: one row of three buttons whose callbacks are "lang:" and the language. */
  function LanguageKeyboard(): (m: Markup)
    ensures |m| == 1 && |m[0]| == |PickerLanguages|
    ensures forall k :: 0 <= k < |PickerLanguages| ==> m[0][k].callbackData == Some("lang:" + PickerLanguages[k])
  {
    assert "lang:" + "ru" == "lang:ru" && "lang:" + "uk" == "lang:uk" && "lang:" + "en" == "lang:en";
    [[CallbackButton("🇷🇺 Русский", "lang:ru"),
      CallbackButton("🇺🇦 Українська", "lang:uk"),
      CallbackButton("🇬🇧 English", "lang:en")]]
  }

  /** The language a "lang:..." callback selects: callback.data.split(":")[1]. */
  function CallbackLanguage(data: string): string
    requires StartsWith(data, "lang:")
  {
    assert data == "lang" + [':'] + data[5..];
    SplitHead("lang", ':', data[5..]);
    Split(data, ':')[1]
  }

  /** Every button of the language picker selects exactly the language it shows. */
  lemma LanguageButtonsSelect(k: nat)
    requires k < |PickerLanguages|
    ensures var data := LanguageKeyboard()[0][k].callbackData.value;
      StartsWith(data, "lang:") && CallbackLanguage(data) == PickerLanguages[k]
  {
    var data := "lang:" + PickerLanguages[k];
    assert data == "lang" + [':'] + PickerLanguages[k];
    assert ':' !in PickerLanguages[k];
    SplitHead("lang", ':', PickerLanguages[k]);
    assert data[5..] == PickerLanguages[k];
  }

  /** get_cancel_keyboard: a single button with the given text whose callback is "cancel". */
  function CancelKeyboard(text: string): (m: Markup)
    ensures |m| == 1 && |m[0]| == 1
    ensures m[0][0].text == text && m[0][0].callbackData == Some("cancel") && m[0][0].url.None?
  {
    [[CallbackButton(text, "cancel")]]
  }

  /** The status mark of a group button. */
  function StatusMark(botActive: bool): string {
    if botActive then "✅" else "❌"
  }

  /** The button for one (group id, title, bot_active) entry. */
  function GroupButton(groupId: int, title: string, botActive: bool): (b: Button)
    ensures b.url.None? && b.callbackData.Some?
    ensures b.text == title + " " + StatusMark(botActive)
  {
    CallbackButton(title + " " + StatusMark(botActive), "group:" + IntToString(groupId))
  }

  /** A group button's callback names its group: the id after "group:" parses back. */
  lemma GroupCallbackNamesGroup(groupId: int, title: string, botActive: bool)
    ensures var data := GroupButton(groupId, title, botActive).callbackData.value;
      StartsWith(data, "group:") && ParseInt(data[6..]) == Some(groupId)
  {
    var data := "group:" + IntToString(groupId);
    assert data[6..] == IntToString(groupId);
    IntToStringParses(groupId);
  }

  /** A group button shows whether the bot is active in the group. */
  lemma GroupButtonShowsStatus(groupId: int, title: string, botActive: bool)
    ensures var t := GroupButton(groupId, title, botActive).text;
      EndsWith(t, "✅") <==> botActive
  {
    var t := GroupButton(groupId, title, botActive).text;
    assert t[|t| - 1] == if botActive then '✅' else '❌';
  }

  /**
   * get_groups_keyboard: one row per group, in the given order, each
   * holding that group's button.
   */
  method GroupsKeyboard(groups: seq<(int, string, bool)>) returns (m: Markup)
    ensures |m| == |groups|
    ensures forall k :: 0 <= k < |groups| ==> m[k] == [GroupButton(groups[k].0, groups[k].1, groups[k].2)]
  {
    m := [];
    for i := 0 to |groups|
      invariant |m| == i
      invariant forall k :: 0 <= k < i ==> m[k] == [GroupButton(groups[k].0, groups[k].1, groups[k].2)]
    {
      var (groupId, title, botActive) := groups[i];
      m := m + [[GroupButton(groupId, title, botActive)]];
    }
  }
}
