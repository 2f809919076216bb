/*
 * NotificationLogRepository (src/db/repositories/notification_log.py):
 * appends to notification_logs and gm_history, and the two sliding-window
 * rate checks. Times are whole seconds; `now` is the database's NOW().
 */
module NotificationLogRepository {
  import opened Common
  import opened Db

  /** log: appends one notification_logs row with the given fields, stamped now. */
  method Log(db: Database, senderId: int, recipientId: int, kind: string, success: bool,
             groupId: Option<int>, error: Option<string>, now: int)
    modifies db`logs
    ensures db.logs == old(db.logs) + [LogRow(groupId, senderId, recipientId, kind, success, error, now)]
  {
    db.logs := db.logs + [LogRow(groupId, senderId, recipientId, kind, success, error, now)];
  }

  /** record_gm_call: appends one gm_history row stamped now. */
  method RecordGmCall(db: Database, groupId: int, userId: int, now: int)
    modifies db`gmHistory
    ensures db.gmHistory == old(db.gmHistory) + [GmRow(groupId, userId, now)]
  {
    db.gmHistory := db.gmHistory + [GmRow(groupId, userId, now)];
  }

  /** COUNT(*) of the group's gm_history rows with called_at > now - window. */
  function GmCallsInWindow(history: seq<GmRow>, groupId: int, now: int, window: int): (n: nat)
    ensures n <= |history|
  {
    if history == [] then 0
    else
      var last := history[|history| - 1];
      GmCallsInWindow(history[..|history| - 1], groupId, now, window)
      + (if last.groupId == groupId && last.calledAt > now - window then 1 else 0)
  }

  /** check_gm_rate_limit: allowed while the window holds fewer than max_calls calls. */
  function CheckGmRateLimit(history: seq<GmRow>, groupId: int, now: int, window: int, maxCalls: int): (allowed: bool)
    ensures maxCalls <= 0 ==> !allowed
    ensures history == [] ==> (allowed <==> maxCalls > 0)
  {
    GmCallsInWindow(history, groupId, now, window) < maxCalls
  }

  /** Recording a call counts once in its own group's window, and not at all elsewhere. */
  lemma RecordCounts(history: seq<GmRow>, groupId: int, userId: int, calledAt: int, g: int, now: int, window: int)
    ensures GmCallsInWindow(history + [GmRow(groupId, userId, calledAt)], g, now, window)
            == GmCallsInWindow(history, g, now, window) + (if g == groupId && calledAt > now - window then 1 else 0)
  {
    assert (history + [GmRow(groupId, userId, calledAt)])[..|history|] == history;
  }

  /** max_calls calls recorded inside the window make the next check fail. */
  lemma {:induction false} FullWindowBlocks(history: seq<GmRow>, calls: seq<GmRow>, groupId: int, now: int,
                                            window: int, maxCalls: int)
    requires |calls| >= maxCalls
    requires forall k :: 0 <= k < |calls| ==> calls[k].groupId == groupId && calls[k].calledAt > now - window
    ensures !CheckGmRateLimit(history + calls, groupId, now, window, maxCalls)
  {
    CallsCounted(history, calls, groupId, now, window);
  }

  lemma {:induction false} CallsCounted(history: seq<GmRow>, calls: seq<GmRow>, groupId: int, now: int, window: int)
    requires forall k :: 0 <= k < |calls| ==> calls[k].groupId == groupId && calls[k].calledAt > now - window
    ensures GmCallsInWindow(history + calls, groupId, now, window) == GmCallsInWindow(history, groupId, now, window) + |calls|
  {
    if calls == [] {
      assert history + calls == history;
    } else {
      var init := calls[..|calls| - 1];
      var last := calls[|calls| - 1];
      CallsCounted(history, init, groupId, now, window);
      assert history + calls == (history + init) + [last];
      RecordCounts(history + init, last.groupId, last.userId, last.calledAt, groupId, now, window);
    }
  }

  /** Calls older than the window stop counting: the check depends only on rows inside it. */
  lemma {:induction false} OldCallsIgnored(history: seq<GmRow>, groupId: int, now: int, window: int)
    requires forall k :: 0 <= k < |history| ==> history[k].calledAt <= now - window
    ensures GmCallsInWindow(history, groupId, now, window) == 0
  {
    if history != [] {
      OldCallsIgnored(history[..|history| - 1], groupId, now, window);
    }
  }

  /** COUNT(*) of the user's 'test_alarm' notification_logs rows with created_at > now - window. */
  function TestAlarmsInWindow(logs: seq<LogRow>, userId: int, now: int, window: int): (n: nat)
    ensures n <= |logs|
  {
    if logs == [] then 0
    else
      var last := logs[|logs| - 1];
      TestAlarmsInWindow(logs[..|logs| - 1], userId, now, window)
      + (if last.senderId == userId && last.kind == "test_alarm" && last.createdAt > now - window then 1 else 0)
  }

  /** check_test_alarm_rate_limit: allowed while the window holds fewer than max_calls test alarms. */
  function CheckTestAlarmRateLimit(logs: seq<LogRow>, userId: int, now: int, window: int, maxCalls: int)
    : (allowed: bool)
    ensures maxCalls <= 0 ==> !allowed
  {
    TestAlarmsInWindow(logs, userId, now, window) < maxCalls
  }

  /** A logged row counts for the test-alarm check only if it is the user's own test alarm inside the window. */
  lemma LogCounts(logs: seq<LogRow>, row: LogRow, userId: int, now: int, window: int)
    ensures TestAlarmsInWindow(logs + [row], userId, now, window)
            == TestAlarmsInWindow(logs, userId, now, window)
               + (if row.senderId == userId && row.kind == "test_alarm" && row.createdAt > now - window then 1 else 0)
  {
    assert (logs + [row])[..|logs|] == logs;
  }
}
