/*
 * The group-chat handlers (src/bot/handlers/group.py): the admin check,
 * the /gm argument classifier and its dispatch to the notification
 * service, and the only_admin toggle. A handler's replies are appended to
 * the chat's reply list, by localisation key.
 */
module GroupHandlers {
  import opened Common
  import opened Db
  import S = SubscriptionRepository
  import G = GroupRepository
  import N = Notification

  /** is_admin: always in a private chat, otherwise only for administrators and the creator. */
  predicate IsAdmin(chatType: string, memberStatus: string) {
    chatType == "private" || memberStatus == "administrator" || memberStatus == "creator"
  }

  // ---------------------------------------------------------------------
  // The /gm argument classifier
  // ---------------------------------------------------------------------

  /** Whom a /gm command addresses, as cmd_gm reads its text. */
  datatype GmTarget =
    | Everyone(customText: Option<string>)                              // no argument, or an unknown word
    | Username(name: string, customText: Option<string>)                // "@name [text]"
    | UserId(id: nat, customText: Option<string>)                       // "123 [text]"
    | Word(word: string, remaining: Option<string>, rest: string)       // a first word to look up
    | NoUsername                                                        // "@" alone
    | IndexError                                                        // the exception "@" alone raises

  /** The second piece of a maxsplit=1 split, if any. */
  function Second(parts: seq<string>): Option<string> {
    if |parts| > 1 then Some(parts[1]) else None
  }

  /** The "@name [text]" form, once the '@' is dropped: None when nothing follows it. */
  function AtTarget(afterAt: string): Option<GmTarget> {
    var parts := SplitOnce(afterAt);
    if parts == [] then None else Some(Username(parts[0], Second(parts)))
  }

  /** The argument of /gm, stripped and non-empty, read as a word and the text after it. */
  function WordTarget(rest: string): GmTarget
    requires !AllSpace(rest)
  {
    var parts := SplitOnce(rest);
    if IsDigits(parts[0]) then UserId(DigitsValue(parts[0]), Second(parts))
    else Word(parts[0], Second(parts), rest)
  }

  /**
   * The stripped, non-blank argument of /gm: "@..." names a username, an
   * all-digit first word a user id, anything else a word to look up.
   * `bareAt` is what "@" with nothing after it yields.
   */
  function ArgTarget(rest: string, bareAt: GmTarget): GmTarget
    requires !AllSpace(rest)
  {
    if StartsWith(rest, "@") then
      var t := AtTarget(rest[1..]);
      if t.None? then bareAt else t.value
    else WordTarget(rest)
  }

  /** cmd_gm's split of the text into the command and its stripped argument. */
  function ClassifyWith(text: string, bareAt: GmTarget): GmTarget {
    var args := SplitOnce(text);
    if |args| <= 1 then Everyone(None)
    else
      var rest := Strip(args[1]);
      StripSpec(args[1]);
      ArgTarget(rest, bareAt)
  }

  /** cmd_gm's classification as written: parts[0] of an empty split raises IndexError. */
  function ClassifyAsWritten(text: string): GmTarget {
    ClassifyWith(text, IndexError)
  }

  /** cmd_gm's classification, with "@" alone addressing nobody instead of raising. */
  function Classify(text: string): (t: GmTarget)
    ensures t != IndexError
  {
    ClassifyWith(text, NoUsername)
  }

  /** "/gm @" raises IndexError as written. */
  lemma GmAtAloneRaises()
    ensures ClassifyAsWritten("/gm @") == IndexError
  {
    assert "/gm @" == "/gm" + " " + "@";
    assert NoSpace("/gm") by {
      assert !IsSpace('/') && !IsSpace('g') && !IsSpace('m');
    }
    SplitOnceWords("/gm", " ", "@");
    StripKeeps("@");
    assert "@"[1..] == "";
  }

  /** The corrected classifier differs from the written one only where that one raises. */
  lemma ClassifyAgrees(text: string)
    ensures ClassifyAsWritten(text) != IndexError ==> Classify(text) == ClassifyAsWritten(text)
    ensures ClassifyAsWritten(text) == IndexError <==> Classify(text) == NoUsername
  {
  }

  /** "/gm" with no argument addresses everyone with the default text. */
  lemma BareGmAddressesEveryone(command: string, blank: string)
    requires command != [] && NoSpace(command) && AllSpace(blank)
    ensures Classify(command + blank) == Everyone(None)
  {
    var text := command + blank;
    assert text[0] == command[0];
    TokenEndConcatAll(command, blank);
    StripLeftSpaces(blank, []);
    assert blank + [] == blank;
    assert text[..|command|] == command && text[|command|..] == blank;
  }

  lemma {:induction false} TokenEndConcatAll(w: string, blank: string)
    requires NoSpace(w) && AllSpace(blank)
    ensures TokenEnd(w + blank) == |w|
  {
    if blank == [] {
      assert w + blank == w;
      TokenEndWhole(w);
    } else {
      TokenEndConcat(w, blank);
    }
  }

  lemma {:induction false} TokenEndWhole(w: string)
    requires NoSpace(w)
    ensures TokenEnd(w) == |w|
  {
    if w != [] {
      TokenEndWhole(w[1..]);
    }
  }

  /** A command followed by one argument that is its own strip(): the argument alone decides. */
  lemma ArgumentDecides(command: string, arg: string)
    requires command != [] && NoSpace(command)
    requires arg != [] && !IsSpace(arg[0]) && !IsSpace(arg[|arg| - 1])
    ensures !AllSpace(arg) && Classify(command + " " + arg) == ArgTarget(arg, NoUsername)
  {
    SplitOnceWords(command, " ", arg);
    StripKeeps(arg);
  }

  /** "/gm @name text" addresses that username with the text. */
  lemma AtUsernameWithText(command: string, name: string, custom: string)
    requires command != [] && NoSpace(command) && name != [] && NoSpace(name)
    requires custom != [] && !IsSpace(custom[0]) && !IsSpace(custom[|custom| - 1])
    ensures Classify(command + " @" + name + " " + custom) == Username(name, Some(custom))
  {
    var tail := name + " " + custom;
    var arg := "@" + tail;
    assert command + " @" + name + " " + custom == command + " " + arg;
    assert arg[|arg| - 1] == custom[|custom| - 1];
    ArgumentDecides(command, arg);
    assert arg[1..] == tail;
    AtNameText(name, custom);
  }

  lemma AtNameText(name: string, custom: string)
    requires name != [] && NoSpace(name) && custom != [] && !IsSpace(custom[0])
    ensures AtTarget(name + " " + custom) == Some(Username(name, Some(custom)))
  {
    SplitOnceWords(name, " ", custom);
  }

  /** "/gm 123 text" addresses user 123 with the text. */
  lemma IdWithText(command: string, id: nat, custom: string)
    requires command != [] && NoSpace(command)
    requires custom != [] && !IsSpace(custom[0]) && !IsSpace(custom[|custom| - 1])
    ensures Classify(command + " " + NatToString(id) + " " + custom) == UserId(id, Some(custom))
  {
    var digits := NatToString(id);
    var arg := digits + (" " + custom);
    assert command + " " + digits + " " + custom == command + " " + arg;
    assert IsDigit(digits[0]);
    assert arg[0] == digits[0] && arg[|arg| - 1] == custom[|custom| - 1];
    ArgumentDecides(command, arg);
    IdText(id, custom);
  }

  lemma IdText(id: nat, custom: string)
    requires custom != [] && !IsSpace(custom[0])
    ensures var arg := NatToString(id) + (" " + custom);
      !AllSpace(arg) && ArgTarget(arg, NoUsername) == UserId(id, Some(custom))
  {
    DigitsText(NatToString(id), custom);
    NatToStringValue(id);
  }

  lemma DigitsText(digits: string, custom: string)
    requires IsDigits(digits) && custom != [] && !IsSpace(custom[0])
    ensures var arg := digits + (" " + custom);
      !AllSpace(arg) && ArgTarget(arg, NoUsername) == UserId(DigitsValue(digits), Some(custom))
  {
    var arg := digits + (" " + custom);
    assert NoSpace(digits) by {
      forall i | 0 <= i < |digits| ensures !IsSpace(digits[i]) {
        assert IsDigit(digits[i]);
      }
    }
    assert digits + " " + custom == arg;
    SplitOnceWords(digits, " ", custom);
    var parts := SplitOnce(arg);
    assert parts == [digits, custom];
    assert arg[0] == digits[0] && IsDigit(digits[0]);
    assert !StartsWith(arg, "@");
    assert Second(parts) == Some(custom);
    assert WordTarget(arg) == UserId(DigitsValue(digits), Some(custom));
  }

  // ---------------------------------------------------------------------
  // Handlers
  // ---------------------------------------------------------------------

  /** A reply to the command message, by localisation key. */
  datatype Reply =
    | Says(key: string)
    | SentStats(success: nat, fail: nat)        // gm_sent_stats
    | UserFailed(error: Option<string>)         // gm_user_failed

  /** The chat a command came from: the replies it has received. */
  class Chat {
    var replies: seq<Reply>

    constructor ()
      ensures replies == []
    {
      replies := [];
    }

    method Reply(r: Reply)
      modifies this
      ensures replies == old(replies) + [r]
    {
      replies := replies + [r];
    }
  }

  /** The last reply of a fan-out that reached `total` users, `delivered` of them successfully. */
  function FanOutReply(delivered: nat, total: nat): Reply
    requires delivered <= total
  {
    if delivered == total then Says("gm_sent") else SentStats(delivered, total - delivered)
  }

  /**
   * _send_to_all: with nobody reachable it replies gm_no_users and sends
   * nothing (no gm call is recorded either); otherwise gm_sending, the
   * fan-out, then gm_sent when nothing failed or the statistics.
   */
  method SendToAll(db: Database, client: N.PushoverClient, chat: Chat, groupId: int, senderId: int,
                   senderName: string, customText: Option<string>, now: int)
    modifies db`logs, db`gmHistory, client`sent, chat
    ensures var users := S.EnabledUsersWithKeys(db.subscriptions, db.users, groupId);
      && (users == [] ==> chat.replies == old(chat.replies) + [Says("gm_no_users")]
                          && unchanged(client) && unchanged(db))
      && (users != [] ==>
            var delivered := N.DeliveredCount(users, client.reply, |old(client.sent)|);
            && chat.replies == old(chat.replies) + [Says("gm_sending"), FanOutReply(delivered, |users|)]
            && client.sent == old(client.sent) + N.FanOutPushes(users, N.GmText(customText, senderName))
            && db.gmHistory == old(db.gmHistory) + [GmRow(groupId, senderId, now)])
  {
    var users := S.EnabledUsersWithKeys(db.subscriptions, db.users, groupId);
    if users == [] {
      chat.Reply(Says("gm_no_users"));
      return;
    }
    chat.Reply(Says("gm_sending"));
    ghost var sent0 := |client.sent|;
    var success, fail := N.SendGmToAll(db, client, groupId, senderId, senderName, customText, now);
    assert users == S.EnabledUsersWithKeys(db.subscriptions, db.users, groupId);
    assert success == N.DeliveredCount(users, client.reply, sent0) && success + fail == |users|;
    if fail == 0 {
      chat.Reply(Says("gm_sent"));
    } else {
      chat.Reply(SentStats(success, fail));
    }
    assert chat.replies[|chat.replies| - 1] == FanOutReply(success, |users|);
  }

  /** The one push a single-user /gm makes: to the target's key when it has one and has enabled the group, else none. */
  function SingleSend(users: map<int, UserRow>, subs: seq<SubRow>, groupId: int, target: int,
                      customText: Option<string>, senderName: string): (pushes: seq<N.Push>)
    ensures |pushes| <= 1
    ensures pushes != [] <==> N.HasKey(users, target) && S.IsEnabled(subs, target, groupId)
    ensures pushes != [] ==> pushes[0].key == users[target].pushoverKey.value
                             && pushes[0].message == N.GmText(customText, senderName)
  {
    if N.HasKey(users, target) && S.IsEnabled(subs, target, groupId)
    then [N.Push(users[target].pushoverKey.value, N.GmText(customText, senderName), N.DefaultTitle)]
    else []
  }

  /** _send_to_user: gm_sending, the single send, then gm_user_sent or the error. */
  method SendToUser(db: Database, client: N.PushoverClient, chat: Chat, groupId: int, senderId: int,
                    senderName: string, targetUserId: int, customText: Option<string>, now: int)
    returns (ghost ok: bool)
    modifies db`logs, db`gmHistory, client`sent, chat
    ensures N.HasKey(db.users, targetUserId) && S.IsEnabled(db.subscriptions, targetUserId, groupId) ==>
              var key := db.users[targetUserId].pushoverKey.value;
              client.sent == old(client.sent) + [N.Push(key, N.GmText(customText, senderName), N.DefaultTitle)]
    ensures !(N.HasKey(db.users, targetUserId) && S.IsEnabled(db.subscriptions, targetUserId, groupId)) ==>
              unchanged(client) && unchanged(db) && !ok
    ensures |chat.replies| == |old(chat.replies)| + 2 && chat.replies[..|old(chat.replies)| + 1] == old(chat.replies) + [Says("gm_sending")]
    ensures ok ==> chat.replies[|chat.replies| - 1] == Says("gm_user_sent")
    ensures !ok ==> chat.replies[|chat.replies| - 1].UserFailed?
  {
    chat.Reply(Says("gm_sending"));
    var sent, error := N.SendGmToUser(db, client, groupId, senderId, targetUserId, senderName, customText, now);
    ok := sent;
    if sent {
      chat.Reply(Says("gm_user_sent"));
    } else {
      chat.Reply(UserFailed(error));
    }
  }

  /** _resolve_and_send_to_user: an unknown username replies gm_user_not_found and sends nothing. */
  method ResolveAndSendToUser(db: Database, client: N.PushoverClient, chat: Chat, groupId: int, senderId: int,
                              senderName: string, username: string, customText: Option<string>, now: int)
    modifies db`logs, db`gmHistory, client`sent, chat
    ensures S.EnabledUserByUsername(db.subscriptions, db.users, username, groupId).None? ==>
              chat.replies == old(chat.replies) + [Says("gm_user_not_found")] && unchanged(client) && unchanged(db)
    ensures S.EnabledUserByUsername(db.subscriptions, db.users, username, groupId).Some? ==>
              && |chat.replies| == |old(chat.replies)| + 2 && chat.replies[|old(chat.replies)|] == Says("gm_sending")
              && client.sent == old(client.sent)
                 + SingleSend(db.users, db.subscriptions, groupId,
                              S.EnabledUserByUsername(db.subscriptions, db.users, username, groupId).value.0,
                              customText, senderName)
  {
    var found := S.EnabledUserByUsername(db.subscriptions, db.users, username, groupId);
    if found.None? {
      chat.Reply(Says("gm_user_not_found"));
      return;
    }
    var _ := SendToUser(db, client, chat, groupId, senderId, senderName, found.value.0, customText, now);
  }

  /**
   * cmd_gm: a group restricted to admins turns other senders away with
   * gm_admin_only; otherwise the text is classified and dispatched.
   * `memberStatus` is what get_chat_member answers for the sender.
   */
  method CmdGm(db: Database, client: N.PushoverClient, chat: Chat, groupId: int, chatType: string,
               memberStatus: string, senderId: int, senderName: string, text: string, now: int)
    modifies db`logs, db`gmHistory, client`sent, chat
    ensures G.IsOnlyAdmin(db.groups, groupId) && !IsAdmin(chatType, memberStatus) ==>
              chat.replies == old(chat.replies) + [Says("gm_admin_only")] && unchanged(client) && unchanged(db)
    ensures Classify(text) == NoUsername && !(G.IsOnlyAdmin(db.groups, groupId) && !IsAdmin(chatType, memberStatus)) ==>
              chat.replies == old(chat.replies) + [Says("gm_user_not_found")] && unchanged(client) && unchanged(db)
    ensures !(G.IsOnlyAdmin(db.groups, groupId) && !IsAdmin(chatType, memberStatus))
            && Classify(text).Everyone? && S.EnabledUsersWithKeys(db.subscriptions, db.users, groupId) != [] ==>
              client.sent == old(client.sent) + N.FanOutPushes(S.EnabledUsersWithKeys(db.subscriptions, db.users, groupId),
                                                               N.GmText(Classify(text).customText, senderName))
    ensures !(G.IsOnlyAdmin(db.groups, groupId) && !IsAdmin(chatType, memberStatus)) && Classify(text).Word?
            && S.EnabledUserByUsername(db.subscriptions, db.users, Classify(text).word, groupId).None?
            && S.EnabledUsersWithKeys(db.subscriptions, db.users, groupId) != [] ==>
              client.sent == old(client.sent) + N.FanOutPushes(S.EnabledUsersWithKeys(db.subscriptions, db.users, groupId),
                                                               Classify(text).rest)
    ensures !(G.IsOnlyAdmin(db.groups, groupId) && !IsAdmin(chatType, memberStatus)) && Classify(text).Username?
            && S.EnabledUserByUsername(db.subscriptions, db.users, Classify(text).name, groupId).Some? ==>
              client.sent == old(client.sent)
                 + SingleSend(db.users, db.subscriptions, groupId,
                              S.EnabledUserByUsername(db.subscriptions, db.users, Classify(text).name, groupId).value.0,
                              Classify(text).customText, senderName)
    ensures !(G.IsOnlyAdmin(db.groups, groupId) && !IsAdmin(chatType, memberStatus)) && Classify(text).Username?
            && S.EnabledUserByUsername(db.subscriptions, db.users, Classify(text).name, groupId).None? ==>
              chat.replies == old(chat.replies) + [Says("gm_user_not_found")] && unchanged(client) && unchanged(db)
    ensures !(G.IsOnlyAdmin(db.groups, groupId) && !IsAdmin(chatType, memberStatus)) && Classify(text).UserId? ==>
              client.sent == old(client.sent)
                 + SingleSend(db.users, db.subscriptions, groupId, Classify(text).id, Classify(text).customText, senderName)
    ensures !(G.IsOnlyAdmin(db.groups, groupId) && !IsAdmin(chatType, memberStatus)) && Classify(text).Word?
            && S.EnabledUserByUsername(db.subscriptions, db.users, Classify(text).word, groupId).Some? ==>
              client.sent == old(client.sent)
                 + SingleSend(db.users, db.subscriptions, groupId,
                              S.EnabledUserByUsername(db.subscriptions, db.users, Classify(text).word, groupId).value.0,
                              Classify(text).remaining, senderName)
  {
    var onlyAdmin := G.IsOnlyAdmin(db.groups, groupId);
    if onlyAdmin && !IsAdmin(chatType, memberStatus) {
      chat.Reply(Says("gm_admin_only"));
      return;
    }
    match Classify(text)
    case Everyone(customText) =>
      SendToAll(db, client, chat, groupId, senderId, senderName, customText, now);
    case NoUsername =>
      chat.Reply(Says("gm_user_not_found"));
    case Username(name, customText) =>
      ResolveAndSendToUser(db, client, chat, groupId, senderId, senderName, name, customText, now);
    case UserId(id, customText) =>
      var _ := SendToUser(db, client, chat, groupId, senderId, senderName, id, customText, now);
    case Word(word, remaining, rest) =>
      var found := S.EnabledUserByUsername(db.subscriptions, db.users, word, groupId);
      if found.Some? {
        var _ := SendToUser(db, client, chat, groupId, senderId, senderName, found.value.0, remaining, now);
      } else {
        SendToAll(db, client, chat, groupId, senderId, senderName, Some(rest), now);
      }
  }

  /** cmd_only_admin: non-admins get only_admin_permission; admins toggle and hear the new value. */
  method CmdOnlyAdmin(db: Database, chat: Chat, groupId: int, chatType: string, memberStatus: string)
    modifies db`groups, chat
    ensures !IsAdmin(chatType, memberStatus) ==>
              chat.replies == old(chat.replies) + [Says("only_admin_permission")] && db.groups == old(db.groups)
    ensures IsAdmin(chatType, memberStatus) ==>
              && db.groups == G.Toggled(old(db.groups), groupId)
              && chat.replies == old(chat.replies)
                 + [Says(if G.IsOnlyAdmin(db.groups, groupId) then "only_admin_enabled" else "only_admin_disabled")]
  {
    if !IsAdmin(chatType, memberStatus) {
      chat.Reply(Says("only_admin_permission"));
      return;
    }
    var newValue := G.ToggleOnlyAdmin(db, groupId);
    if newValue {
      chat.Reply(Says("only_admin_enabled"));
    } else {
      chat.Reply(Says("only_admin_disabled"));
    }
  }
}
