/*
 * The throttling middleware (src/bot/middlewares/throttling.py): before a
 * /gm in a group or a /test_alarm reaches its handler, the matching
 * sliding-window limit is checked against the logged calls; over the limit
 * the user gets the rate-limit text and the handler is not called.
 */
module Throttling {
  import opened Common
  import opened Db
  import L = NotificationLogRepository

  /** The four rate-limit settings. */
  datatype Limits = Limits(gmRateLimit: int, gmRateWindow: int, testAlarmRateLimit: int, testAlarmRateWindow: int)

  /** The settings' defaults: three /gm per five minutes per group, one test alarm per minute per user. */
  const DefaultLimits := Limits(3, 300, 1, 60)

  /** The update the middleware sees. */
  datatype Update =
    | OtherEvent                                                              // not a Message
    | Message(text: Option<string>, chatId: int, chatType: string, fromUser: Option<int>)

  /** What the middleware does with an update. */
  datatype Decision = CallHandler | Refuse(replyKey: string)

  /** Whether the update is a text message starting, case-insensitively, with the prefix. */
  predicate CommandText(u: Update, prefix: string) {
    u.Message? && u.text.Some? && u.text.value != "" && StartsWith(Lower(u.text.value), prefix)
  }

  /** Whether the gm window of the update's group is checked and full. */
  predicate GmLimited(u: Update, limits: Limits, history: seq<GmRow>, now: int) {
    CommandText(u, "/gm") && (u.chatType == "group" || u.chatType == "supergroup")
    && !L.CheckGmRateLimit(history, u.chatId, now, limits.gmRateWindow, limits.gmRateLimit)
  }

  /** Whether the test-alarm window of the update's sender is checked and full. */
  predicate TestAlarmLimited(u: Update, limits: Limits, logs: seq<LogRow>, now: int) {
    CommandText(u, "/test_alarm") && u.fromUser.Some?
    && !L.CheckTestAlarmRateLimit(logs, u.fromUser.value, now, limits.testAlarmRateWindow, limits.testAlarmRateLimit)
  }

  /**
   * ThrottlingMiddleware.__call__: a non-message or a message without text
   * goes through; a /gm in a group is refused when the group's window is
   * full; a /test_alarm with a sender is refused when the sender's window is
   * full; everything else goes through.
   */
  function Decide(u: Update, limits: Limits, history: seq<GmRow>, logs: seq<LogRow>, now: int): (d: Decision)
    ensures d == CallHandler <==> !GmLimited(u, limits, history, now) && !TestAlarmLimited(u, limits, logs, now)
    ensures GmLimited(u, limits, history, now) ==> d == Refuse("rate_limit_gm")
    ensures TestAlarmLimited(u, limits, logs, now) ==> d == Refuse("rate_limit_test")
  {
    if !u.Message? || u.text.None? || u.text.value == "" then CallHandler
    else
      var text := Lower(u.text.value);
      PrefixesExclusive(text);
      if StartsWith(text, "/gm") && (u.chatType == "group" || u.chatType == "supergroup")
         && !L.CheckGmRateLimit(history, u.chatId, now, limits.gmRateWindow, limits.gmRateLimit)
      then Refuse("rate_limit_gm")
      else if StartsWith(text, "/test_alarm") && u.fromUser.Some?
         && !L.CheckTestAlarmRateLimit(logs, u.fromUser.value, now, limits.testAlarmRateWindow, limits.testAlarmRateLimit)
      then Refuse("rate_limit_test")
      else CallHandler
  }

  /** No text starts with both "/gm" and "/test_alarm", so at most one window is checked. */
  lemma PrefixesExclusive(text: string)
    ensures StartsWith(text, "/gm") ==> !StartsWith(text, "/test_alarm")
  {
    if StartsWith(text, "/gm") {
      assert text[1] == "/gm"[1] == 'g';
    }
  }

  /** A message that is neither command, in any letter case, always reaches its handler. */
  lemma OtherTextPasses(u: Update, limits: Limits, history: seq<GmRow>, logs: seq<LogRow>, now: int)
    requires u.Message? && u.text.Some?
    requires !StartsWith(Lower(u.text.value), "/gm") && !StartsWith(Lower(u.text.value), "/test_alarm")
    ensures Decide(u, limits, history, logs, now) == CallHandler
  {
  }

  /** Letter case does not matter: "/GM" and "/gm" are throttled alike. */
  lemma CaseInsensitive(u: Update, limits: Limits, history: seq<GmRow>, logs: seq<LogRow>, now: int)
    requires u.Message? && u.text.Some?
    ensures Decide(u.(text := Some(Lower(u.text.value))), limits, history, logs, now)
            == Decide(u, limits, history, logs, now)
  {
    var t := u.text.value;
    assert Lower(Lower(t)) == Lower(t) by {
      forall i | 0 <= i < |t| ensures Lower(Lower(t))[i] == Lower(t)[i] {
        assert LowerChar(LowerChar(t[i])) == LowerChar(t[i]);
      }
    }
  }

  /**
   * Once a group's window holds gm_rate_limit calls, the next /gm there is
   * refused: the limiter and the recorder agree.
   */
  lemma {:induction false} FullGmWindowRefuses(u: Update, limits: Limits, history: seq<GmRow>, calls: seq<GmRow>,
                                               logs: seq<LogRow>, now: int)
    requires CommandText(u, "/gm") && (u.chatType == "group" || u.chatType == "supergroup")
    requires |calls| >= limits.gmRateLimit
    requires forall k :: 0 <= k < |calls| ==> calls[k].groupId == u.chatId && calls[k].calledAt > now - limits.gmRateWindow
    ensures Decide(u, limits, history + calls, logs, now) == Refuse("rate_limit_gm")
  {
    L.FullWindowBlocks(history, calls, u.chatId, now, limits.gmRateWindow, limits.gmRateLimit);
  }

  /** With the default settings a group's first /gm is let through and its fourth within five minutes is refused. */
  lemma DefaultGmLimit(u: Update, calls: seq<GmRow>, logs: seq<LogRow>, now: int)
    requires CommandText(u, "/gm") && (u.chatType == "group" || u.chatType == "supergroup")
    requires |calls| == 3
    requires forall k :: 0 <= k < 3 ==> calls[k].groupId == u.chatId && calls[k].calledAt > now - 300
    ensures Decide(u, DefaultLimits, [], logs, now) == CallHandler
    ensures Decide(u, DefaultLimits, calls, logs, now) == Refuse("rate_limit_gm")
  {
    FullGmWindowRefuses(u, DefaultLimits, [], calls, logs, now);
    assert [] + calls == calls;
    PrefixesExclusive(Lower(u.text.value));
  }
}
