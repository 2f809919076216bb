/*
 * NotificationService (src/services/notification.py): the GM fan-out to a
 * group, the GM to one user and the test alarm. The Pushover HTTP client
 * is an oracle: its answer to the n-th emergency send is `reply(n, key)`,
 * and every send is recorded.
 */
module Notification {
  import opened Common
  import opened Db
  import S = SubscriptionRepository
  import U = UserRepository
  import L = NotificationLogRepository

  /** How the Pushover API answered one send: a 200, or the error text. */
  datatype Delivery = Delivered | Failed(error: string)

  /** One emergency send as the client made it. */
  datatype Push = Push(key: string, message: string, title: string)

  /** send_emergency's (success, error_message): no error exactly when delivered. */
  function Outcome(d: Delivery): (r: (bool, Option<string>))
    ensures r.0 <==> r.1.None?
  {
    if d.Delivered? then (true, None) else (false, Some(d.error))
  }

  /** The Pushover client, with the API's answers as an oracle. */
  class PushoverClient {
    const reply: (nat, string) -> Delivery
    var sent: seq<Push>

    constructor (reply: (nat, string) -> Delivery)
      ensures this.reply == reply && sent == []
    {
      this.reply := reply;
      sent := [];
    }

    /** send_emergency: one POST, whose outcome the oracle gives. */
    method SendEmergency(key: string, message: string, title: string) returns (ok: bool, error: Option<string>)
      modifies this`sent
      ensures sent == old(sent) + [Push(key, message, title)]
      ensures (ok, error) == Outcome(reply(|old(sent)|, key))
    {
      ok, error := Outcome(reply(|sent|, key)).0, Outcome(reply(|sent|, key)).1;
      sent := sent + [Push(key, message, title)];
    }
  }

  const DefaultTitle := "ALARM"
  const TestTitle := "TEST ALARM"
  const TestMessage := "Test alarm! If you see this, Pushover is working."

  /** The message text: the custom one, or the wake-up call naming the sender. */
  function GmText(message: Option<string>, senderName: string): (text: string)
    ensures message.Some? ==> text == message.value
    ensures message.None? ==> StartsWith(text, "Wake up! ") && EndsWith(text, " is calling!")
  {
    if message.Some? then message.value else "Wake up! " + senderName + " is calling!"
  }

  // ---------------------------------------------------------------------
  // send_gm_to_all
  // ---------------------------------------------------------------------

  /** The sends the fan-out makes: one per recipient, in order. */
  function FanOutPushes(users: seq<(int, string)>, text: string): (r: seq<Push>)
    ensures |r| == |users|
  {
    if users == [] then [] else FanOutPushes(users[..|users| - 1], text) + [Push(users[|users| - 1].1, text, DefaultTitle)]
  }

  /** The log rows the fan-out writes, the k-th send being the client's call number base + k. */
  function FanOutLogs(users: seq<(int, string)>, reply: (nat, string) -> Delivery, base: nat,
                      senderId: int, groupId: int, now: int): (r: seq<LogRow>)
    ensures |r| == |users|
  {
    if users == [] then []
    else
      var k := |users| - 1;
      var o := Outcome(reply(base + k, users[k].1));
      FanOutLogs(users[..k], reply, base, senderId, groupId, now) + [LogRow(Some(groupId), senderId, users[k].0, "gm", o.0, o.1, now)]
  }

  /** The k-th send goes to the k-th recipient's key, and the k-th log row records its outcome for that recipient. */
  lemma {:induction false} FanOutRows(users: seq<(int, string)>, text: string, reply: (nat, string) -> Delivery, base: nat,
                                      senderId: int, groupId: int, now: int, k: nat)
    requires k < |users|
    ensures FanOutPushes(users, text)[k] == Push(users[k].1, text, DefaultTitle)
    ensures var o := Outcome(reply(base + k, users[k].1));
      FanOutLogs(users, reply, base, senderId, groupId, now)[k] == LogRow(Some(groupId), senderId, users[k].0, "gm", o.0, o.1, now)
  {
    var n := |users| - 1;
    if k < n {
      FanOutRows(users[..n], text, reply, base, senderId, groupId, now, k);
    }
  }

  /** One more recipient adds one send, one log row and possibly one delivery. */
  lemma FanOutStep(users: seq<(int, string)>, i: nat, text: string, reply: (nat, string) -> Delivery, base: nat,
                   senderId: int, groupId: int, now: int)
    requires i < |users|
    ensures FanOutPushes(users[..i + 1], text) == FanOutPushes(users[..i], text) + [Push(users[i].1, text, DefaultTitle)]
    ensures var o := Outcome(reply(base + i, users[i].1));
      FanOutLogs(users[..i + 1], reply, base, senderId, groupId, now)
      == FanOutLogs(users[..i], reply, base, senderId, groupId, now) + [LogRow(Some(groupId), senderId, users[i].0, "gm", o.0, o.1, now)]
    ensures DeliveredCount(users[..i + 1], reply, base)
            == DeliveredCount(users[..i], reply, base) + (if reply(base + i, users[i].1).Delivered? then 1 else 0)
  {
    assert users[..i + 1][..i] == users[..i];
  }

  /** How many of the fan-out's sends were delivered. */
  function DeliveredCount(users: seq<(int, string)>, reply: (nat, string) -> Delivery, base: nat): (n: nat)
    ensures n <= |users|
  {
    if users == [] then 0
    else
      var k := |users| - 1;
      DeliveredCount(users[..k], reply, base) + (if reply(base + k, users[k].1).Delivered? then 1 else 0)
  }

  /** The delivered count is the number of successful rows the fan-out logs. */
  lemma {:induction false} DeliveredLogged(users: seq<(int, string)>, reply: (nat, string) -> Delivery, base: nat,
                                           senderId: int, groupId: int, now: int)
    ensures DeliveredCount(users, reply, base) == SuccessRows(FanOutLogs(users, reply, base, senderId, groupId, now))
  {
    if users != [] {
      var k := |users| - 1;
      var logs := FanOutLogs(users, reply, base, senderId, groupId, now);
      assert logs[..k] == FanOutLogs(users[..k], reply, base, senderId, groupId, now);
      DeliveredLogged(users[..k], reply, base, senderId, groupId, now);
    }
  }

  /** The rows whose send succeeded. */
  function SuccessRows(logs: seq<LogRow>): nat {
    if logs == [] then 0 else SuccessRows(logs[..|logs| - 1]) + (if logs[|logs| - 1].success then 1 else 0)
  }

  /** One recipient of send_gm_to_all: the alarm is sent, then its outcome is logged as a "gm" row. */
  method SendAndLog(db: Database, client: PushoverClient, groupId: int, senderId: int, userId: int, key: string,
                    text: string, now: int) returns (ok: bool)
    modifies db`logs, client`sent
    ensures client.sent == old(client.sent) + [Push(key, text, DefaultTitle)]
    ensures var o := Outcome(client.reply(|old(client.sent)|, key));
      ok == o.0 && db.logs == old(db.logs) + [LogRow(Some(groupId), senderId, userId, "gm", o.0, o.1, now)]
  {
    var error;
    ok, error := client.SendEmergency(key, text, DefaultTitle);
    L.Log(db, senderId, userId, "gm", ok, Some(groupId), error, now);
  }

  /**
   * send_gm_to_all: one send and one log row per enabled user with a key,
   * in the query's order, then exactly one gm call recorded, even when
   * nobody was reachable; success + fail is the number of those users.
   */
  method SendGmToAll(db: Database, client: PushoverClient, groupId: int, senderId: int, senderName: string,
                     message: Option<string>, now: int) returns (success: nat, fail: nat)
    modifies db`logs, db`gmHistory, client`sent
    ensures var users := S.EnabledUsersWithKeys(db.subscriptions, db.users, groupId);
      var base := |old(client.sent)|;
      && client.sent == old(client.sent) + FanOutPushes(users, GmText(message, senderName))
      && db.logs == old(db.logs) + FanOutLogs(users, client.reply, base, senderId, groupId, now)
      && success == DeliveredCount(users, client.reply, base)
      && success + fail == |users|
    ensures db.gmHistory == old(db.gmHistory) + [GmRow(groupId, senderId, now)]
  {
    var users := S.EnabledUsersWithKeys(db.subscriptions, db.users, groupId);
    success, fail := FanOut(db, client, users, GmText(message, senderName), groupId, senderId, now);
    ghost var logs := db.logs;
    L.RecordGmCall(db, groupId, senderId, now);
    assert db.logs == logs && users == S.EnabledUsersWithKeys(db.subscriptions, db.users, groupId);
  }

  /** The loop of send_gm_to_all: each user in turn is sent the alarm and logged. */
  method FanOut(db: Database, client: PushoverClient, users: seq<(int, string)>, text: string,
                groupId: int, senderId: int, now: int) returns (success: nat, fail: nat)
    modifies db`logs, client`sent
    ensures var base := |old(client.sent)|;
      && client.sent == old(client.sent) + FanOutPushes(users, text)
      && db.logs == old(db.logs) + FanOutLogs(users, client.reply, base, senderId, groupId, now)
      && success == DeliveredCount(users, client.reply, base)
      && success + fail == |users|
  {
    ghost var base := |client.sent|;
    success, fail := 0, 0;
    var i := 0;
    while i < |users|
      invariant 0 <= i <= |users|
      invariant client.sent == old(client.sent) + FanOutPushes(users[..i], text)
      invariant db.logs == old(db.logs) + FanOutLogs(users[..i], client.reply, base, senderId, groupId, now)
      invariant success == DeliveredCount(users[..i], client.reply, base)
      invariant success + fail == i
      invariant |client.sent| == base + i
    {
      var userId, key := users[i].0, users[i].1;
      FanOutStep(users, i, text, client.reply, base, senderId, groupId, now);
      var o := Outcome(client.reply(base + i, key));
      ConcatAssoc(old(client.sent), FanOutPushes(users[..i], text), [Push(key, text, DefaultTitle)]);
      ConcatAssoc(old(db.logs), FanOutLogs(users[..i], client.reply, base, senderId, groupId, now),
                  [LogRow(Some(groupId), senderId, userId, "gm", o.0, o.1, now)]);
      var ok := SendAndLog(db, client, groupId, senderId, userId, key, text, now);
      if ok {
        success := success + 1;
      } else {
        fail := fail + 1;
      }
      i := i + 1;
    }
    assert users[..i] == users;
  }

  // ---------------------------------------------------------------------
  // send_gm_to_user and send_test_alarm
  // ---------------------------------------------------------------------

  const NoUserOrKey := "User not found or no Pushover key"
  const NotEnabledHere := "User has not enabled notifications in this group"
  const NoKeyConfigured := "No Pushover key configured"

  /** `not user or not user.pushover_key`: no such user, or a NULL or empty key. */
  predicate HasKey(users: map<int, UserRow>, userId: int) {
    userId in users && users[userId].pushoverKey.Some? && users[userId].pushoverKey.value != ""
  }

  /**
   * send_gm_to_user: a user without a key, or one who has not enabled the
   * group, gets nothing and nothing is logged or recorded; otherwise one
   * send, one "gm_single" log row and one gm call, and the client's answer
   * is returned.
   */
  method SendGmToUser(db: Database, client: PushoverClient, groupId: int, senderId: int, targetUserId: int,
                      senderName: string, message: Option<string>, now: int) returns (ok: bool, error: Option<string>)
    modifies db`logs, db`gmHistory, client`sent
    ensures !HasKey(db.users, targetUserId) ==>
              (ok, error) == (false, Some(NoUserOrKey)) && unchanged(db) && unchanged(client)
    ensures HasKey(db.users, targetUserId) && !S.IsEnabled(db.subscriptions, targetUserId, groupId) ==>
              (ok, error) == (false, Some(NotEnabledHere)) && unchanged(db) && unchanged(client)
    ensures HasKey(db.users, targetUserId) && S.IsEnabled(db.subscriptions, targetUserId, groupId) ==>
              var key := db.users[targetUserId].pushoverKey.value;
              && (ok, error) == Outcome(client.reply(|old(client.sent)|, key))
              && client.sent == old(client.sent) + [Push(key, GmText(message, senderName), DefaultTitle)]
              && db.logs == old(db.logs) + [LogRow(Some(groupId), senderId, targetUserId, "gm_single", ok, error, now)]
              && db.gmHistory == old(db.gmHistory) + [GmRow(groupId, senderId, now)]
  {
    var text := GmText(message, senderName);
    var user := U.Get(db.users, targetUserId);
    if user.None? || user.value.row.pushoverKey.None? || user.value.row.pushoverKey.value == "" {
      return false, Some(NoUserOrKey);
    }
    var isEnabled := S.IsEnabled(db.subscriptions, targetUserId, groupId);
    if !isEnabled {
      return false, Some(NotEnabledHere);
    }
    ok, error := client.SendEmergency(user.value.row.pushoverKey.value, text, DefaultTitle);
    L.Log(db, senderId, targetUserId, "gm_single", ok, Some(groupId), error, now);
    L.RecordGmCall(db, groupId, senderId, now);
  }

  /**
   * send_test_alarm: no key means no send; otherwise one send titled
   * "TEST ALARM" and one "test_alarm" log row without a group, and no gm
   * call recorded.
   */
  method SendTestAlarm(db: Database, client: PushoverClient, userId: int, message: string, now: int)
    returns (ok: bool, error: Option<string>)
    modifies db`logs, client`sent
    ensures !HasKey(db.users, userId) ==>
              (ok, error) == (false, Some(NoKeyConfigured)) && unchanged(db) && unchanged(client)
    ensures HasKey(db.users, userId) ==>
              var key := db.users[userId].pushoverKey.value;
              && (ok, error) == Outcome(client.reply(|old(client.sent)|, key))
              && client.sent == old(client.sent) + [Push(key, message, TestTitle)]
              && db.logs == old(db.logs) + [LogRow(None, userId, userId, "test_alarm", ok, error, now)]
  {
    var user := U.Get(db.users, userId);
    if user.None? || user.value.row.pushoverKey.None? || user.value.row.pushoverKey.value == "" {
      return false, Some(NoKeyConfigured);
    }
    ok, error := client.SendEmergency(user.value.row.pushoverKey.value, message, TestTitle);
    L.Log(db, userId, userId, "test_alarm", ok, None, error, now);
  }

  /** A test alarm counts against the sender's own test-alarm window, and never against a group's gm window. */
  lemma TestAlarmCountsOnce(logs: seq<LogRow>, userId: int, ok: bool, error: Option<string>, now: int, window: int)
    requires window > 0
    ensures L.TestAlarmsInWindow(logs + [LogRow(None, userId, userId, "test_alarm", ok, error, now)], userId, now, window)
            == L.TestAlarmsInWindow(logs, userId, now, window) + 1
  {
    L.LogCounts(logs, LogRow(None, userId, userId, "test_alarm", ok, error, now), userId, now, window);
  }
}
