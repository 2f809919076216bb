// The broadcast dispatch engine: a single-flight run over a snapshot of
// subscriber ids, each recipient sent to with a retry budget, the outcome
// tallied in a BroadcastResult and blocked recipients marked KICKED.
//
// The Telegram transport is an oracle: `sender(chatId, attempt)` says what
// the attempt-th send to chatId raised (or that it went through). Sleeps,
// sends and progress-callback calls are recorded in a ghost effect log.

module Service {
  import opened Common
  import opened Models
  import opened Storage
  import opened Errors

  /** What one call of the sender did: returned, or raised one of these. */
  datatype SendOutcome =
    | Delivered
    | Forbidden(message: string)      // TelegramForbiddenError
    | RetryAfter(seconds: int)        // TelegramRetryAfter
    | ApiError(message: string)       // any other TelegramAPIError
    | Unexpected(message: string)     // any other Exception

  type Sender = (int, nat) -> SendOutcome

  /** Observable steps of a run, in order. */
  datatype Effect =
    | Call(chatId: int, attempt: nat)
    | Pause(seconds: real)
    | Progress(index: nat, total: int, tally: Tally)

  /** Forbidden errors whose text mentions a block or a kick, ignoring case. */
  predicate IsBlockedMessage(message: string) {
    Contains(Lower(message), "blocked") || Contains(Lower(message), "kicked")
  }

  // ---------------------------------------------------------------------
  // Specification of _send_with_retry
  // ---------------------------------------------------------------------

  /** How the attempts for one recipient ended. */
  datatype Verdict =
    | Sent                                  // add_success ran
    | Failure(error: string, blocked: bool)  // add_failure ran
    | Exhausted                             // the budget ran out; the result was not touched

  /** The verdict for one recipient and the log of its attempts. */
  datatype Attempts = Attempts(verdict: Verdict, effects: seq<Effect>)

  function Delay(effects: seq<Effect>, a: Attempts): Attempts {
    a.(effects := effects + a.effects)
  }

  /**
   * The outcomes after which the loop goes on to the next attempt: every
   * RetryAfter (its `continue` uses up the attempt), and a generic API error
   * that is not on the last attempt.
   */
  predicate Retries(o: SendOutcome, attempt: nat, maxRetries: int) {
    o.RetryAfter? || (o.ApiError? && attempt < maxRetries - 1)
  }

  /** The sleep before the next attempt: retry_after seconds, or retryDelay*(attempt+1). */
  function RetryPause(o: SendOutcome, attempt: nat, retryDelay: real): real {
    if o.RetryAfter? then o.seconds as real else retryDelay * (attempt + 1) as real
  }

  /**
   * The verdict of an outcome that ends the attempts: success, a Forbidden
   * failure (blocked when its text says so), or a plain failure carrying the
   * error text. A RetryAfter never ends the attempts and is given the
   * out-of-attempts verdict.
   */
  function Settle(o: SendOutcome): Verdict {
    match o
    case Delivered => Sent
    case Forbidden(msg) => Failure(msg, IsBlockedMessage(msg))
    case RetryAfter(_) => Exhausted
    case ApiError(msg) => Failure(msg, false)
    case Unexpected(msg) => Failure(msg, false)
  }

  /**
   * The attempts numbered attempt .. maxRetries-1 for recipient id,
   * following the except clauses in their order: each attempt calls the
   * sender; a retrying outcome sleeps and moves on, any other settles the
   * recipient. Running out of attempts leaves the verdict Exhausted.
   */
  function SendFrom(sender: Sender, id: int, attempt: nat, maxRetries: int, retryDelay: real): Attempts
    decreases maxRetries - attempt
  {
    if attempt >= maxRetries then Attempts(Exhausted, [])
    else
      var o := sender(id, attempt);
      if Retries(o, attempt, maxRetries) then
        Delay([Call(id, attempt), Pause(RetryPause(o, attempt, retryDelay))],
              SendFrom(sender, id, attempt + 1, maxRetries, retryDelay))
      else Attempts(Settle(o), [Call(id, attempt)])
  }

  /** A KICKED mark is asked for exactly after a blocked failure. */
  predicate Kicks(v: Verdict) {
    v.Failure? && v.blocked
  }

  /**
   * The result after one recipient's verdict: add_success, add_failure, or
   * nothing. At most one of successful/failed moves, by one; total is
   * untouched; the recipient joins blocked_users exactly when it is to be
   * marked KICKED, and only errors[id] can change.
   */
  function Record(t: Tally, id: int, v: Verdict): (u: Tally)
    ensures u.total == t.total
    ensures v.Sent? <==> u.successful == t.successful + 1
    ensures v.Failure? <==> u.failed == t.failed + 1
    ensures u.successful >= t.successful && u.failed >= t.failed
    ensures u.successful + u.failed <= t.successful + t.failed + 1
    ensures u.blockedUsers == t.blockedUsers + (if Kicks(v) then [id] else [])
    ensures v.Failure? ==> u.errors == t.errors[id := v.error]
    ensures !v.Failure? ==> u.errors == t.errors
  {
    match v
    case Sent => t.WithSuccess()
    case Failure(msg, blocked) => t.WithFailure(id, msg, blocked)
    case Exhausted => t
  }

  /** Number of sender calls in a log. */
  function CallCount(effects: seq<Effect>): nat {
    if effects == [] then 0
    else (if effects[0].Call? then 1 else 0) + CallCount(effects[1..])
  }

  /** The recipients in the order their first attempt was made. */
  function FirstCalls(effects: seq<Effect>): seq<int> {
    if effects == [] then []
    else (if effects[0].Call? && effects[0].attempt == 0 then [effects[0].chatId] else [])
         + FirstCalls(effects[1..])
  }

  /** The indices passed to the progress callback, in order. */
  function ProgressMarks(effects: seq<Effect>): seq<nat> {
    if effects == [] then []
    else (if effects[0].Progress? then [effects[0].index] else []) + ProgressMarks(effects[1..])
  }

  /** The pauses in a log, in order. */
  function Pauses(effects: seq<Effect>): seq<real> {
    if effects == [] then []
    else (if effects[0].Pause? then [effects[0].seconds] else []) + Pauses(effects[1..])
  }

  lemma {:induction false} CallCountConcat(a: seq<Effect>, b: seq<Effect>)
    ensures CallCount(a + b) == CallCount(a) + CallCount(b)
  {
    if a == [] {
      assert a + b == b;
    } else {
      assert (a + b)[0] == a[0];
      assert (a + b)[1..] == a[1..] + b;
      CallCountConcat(a[1..], b);
    }
  }

  lemma {:induction false} FirstCallsConcat(a: seq<Effect>, b: seq<Effect>)
    ensures FirstCalls(a + b) == FirstCalls(a) + FirstCalls(b)
  {
    if a == [] {
      assert a + b == b;
    } else {
      var head: seq<int> := if a[0].Call? && a[0].attempt == 0 then [a[0].chatId] else [];
      assert (a + b)[0] == a[0];
      assert (a + b)[1..] == a[1..] + b;
      FirstCallsConcat(a[1..], b);
      assert FirstCalls(a + b) == head + FirstCalls(a[1..] + b);
      assert FirstCalls(a) == head + FirstCalls(a[1..]);
      AppendAssoc(head, FirstCalls(a[1..]), FirstCalls(b));
    }
  }

  lemma {:induction false} ProgressMarksConcat(a: seq<Effect>, b: seq<Effect>)
    ensures ProgressMarks(a + b) == ProgressMarks(a) + ProgressMarks(b)
  {
    if a == [] {
      assert a + b == b;
    } else {
      var head: seq<nat> := if a[0].Progress? then [a[0].index] else [];
      assert (a + b)[0] == a[0];
      assert (a + b)[1..] == a[1..] + b;
      ProgressMarksConcat(a[1..], b);
      assert ProgressMarks(a + b) == head + ProgressMarks(a[1..] + b);
      assert ProgressMarks(a) == head + ProgressMarks(a[1..]);
      AppendAssoc(head, ProgressMarks(a[1..]), ProgressMarks(b));
    }
  }

  lemma {:induction false} PausesConcat(a: seq<Effect>, b: seq<Effect>)
    ensures Pauses(a + b) == Pauses(a) + Pauses(b)
  {
    if a == [] {
      assert a + b == b;
    } else {
      var head: seq<real> := if a[0].Pause? then [a[0].seconds] else [];
      assert (a + b)[0] == a[0];
      assert (a + b)[1..] == a[1..] + b;
      PausesConcat(a[1..], b);
      assert Pauses(a + b) == head + Pauses(a[1..] + b);
      assert Pauses(a) == head + Pauses(a[1..]);
      AppendAssoc(head, Pauses(a[1..]), Pauses(b));
    }
  }

  /** The four log views distribute over concatenation. */
  lemma LogConcat(a: seq<Effect>, b: seq<Effect>)
    ensures CallCount(a + b) == CallCount(a) + CallCount(b)
    ensures FirstCalls(a + b) == FirstCalls(a) + FirstCalls(b)
    ensures ProgressMarks(a + b) == ProgressMarks(a) + ProgressMarks(b)
    ensures Pauses(a + b) == Pauses(a) + Pauses(b)
  {
    CallCountConcat(a, b);
    FirstCallsConcat(a, b);
    ProgressMarksConcat(a, b);
    PausesConcat(a, b);
  }

  lemma TakeSnoc<T>(s: seq<T>, n: nat)
    requires 0 < n <= |s|
    ensures s[..n] == s[..n - 1] + [s[n - 1]]
  {
  }

  lemma AppendAssoc<T>(a: seq<T>, b: seq<T>, c: seq<T>)
    ensures a + (b + c) == (a + b) + c
  {
  }

  /** The four log views of a one-entry log. */
  lemma LogOf(e: Effect)
    ensures CallCount([e]) == if e.Call? then 1 else 0
    ensures FirstCalls([e]) == if e.Call? && e.attempt == 0 then [e.chatId] else []
    ensures ProgressMarks([e]) == if e.Progress? then [e.index] else []
    ensures Pauses([e]) == if e.Pause? then [e.seconds] else []
  {
    assert [e][1..] == [];
  }

  /** The four log views of an entry followed by a log. */
  lemma LogCons(e: Effect, rest: seq<Effect>)
    ensures CallCount([e] + rest) == CallCount([e]) + CallCount(rest)
    ensures FirstCalls([e] + rest) == FirstCalls([e]) + FirstCalls(rest)
    ensures ProgressMarks([e] + rest) == ProgressMarks([e]) + ProgressMarks(rest)
    ensures Pauses([e] + rest) == Pauses([e]) + Pauses(rest)
  {
    assert ([e] + rest)[0] == e;
    assert ([e] + rest)[1..] == rest;
    LogOf(e);
  }

  /** The four log views of two entries followed by a log. */
  lemma LogOfPair(x: Effect, y: Effect, rest: seq<Effect>)
    ensures CallCount([x, y] + rest) == CallCount([x]) + CallCount([y]) + CallCount(rest)
    ensures FirstCalls([x, y] + rest) == FirstCalls([x]) + FirstCalls([y]) + FirstCalls(rest)
    ensures ProgressMarks([x, y] + rest) == ProgressMarks([x]) + ProgressMarks([y]) + ProgressMarks(rest)
    ensures Pauses([x, y] + rest) == Pauses([x]) + Pauses([y]) + Pauses(rest)
  {
    assert [x, y] + rest == [x] + ([y] + rest);
    LogCons(x, [y] + rest);
    LogCons(y, rest);
    AppendAssoc(FirstCalls([x]), FirstCalls([y]), FirstCalls(rest));
    AppendAssoc(ProgressMarks([x]), ProgressMarks([y]), ProgressMarks(rest));
    AppendAssoc(Pauses([x]), Pauses([y]), Pauses(rest));
  }

  /** The attempts for one recipient never call the progress callback. */
  lemma {:induction false} SendNoProgress(sender: Sender, id: int, attempt: nat, maxRetries: int, retryDelay: real)
    ensures ProgressMarks(SendFrom(sender, id, attempt, maxRetries, retryDelay).effects) == []
    decreases maxRetries - attempt
  {
    if attempt < maxRetries {
      var o := sender(id, attempt);
      var call := Call(id, attempt);
      LogOf(call);
      if Retries(o, attempt, maxRetries) {
        var pause := Pause(RetryPause(o, attempt, retryDelay));
        var rest := SendFrom(sender, id, attempt + 1, maxRetries, retryDelay);
        assert SendFrom(sender, id, attempt, maxRetries, retryDelay).effects == [call, pause] + rest.effects;
        SendNoProgress(sender, id, attempt + 1, maxRetries, retryDelay);
        LogOfPair(call, pause, rest.effects);
        LogOf(pause);
      }
    }
  }

  /** The sender is called at most once per remaining attempt, never when the budget is used up. */
  lemma {:induction false} SendCallCount(sender: Sender, id: int, attempt: nat, maxRetries: int, retryDelay: real)
    ensures CallCount(SendFrom(sender, id, attempt, maxRetries, retryDelay).effects)
         <= (if maxRetries > attempt then maxRetries - attempt else 0)
    decreases maxRetries - attempt
  {
    if attempt < maxRetries {
      var o := sender(id, attempt);
      var call := Call(id, attempt);
      LogOf(call);
      if Retries(o, attempt, maxRetries) {
        var pause := Pause(RetryPause(o, attempt, retryDelay));
        var rest := SendFrom(sender, id, attempt + 1, maxRetries, retryDelay);
        assert SendFrom(sender, id, attempt, maxRetries, retryDelay).effects == [call, pause] + rest.effects;
        SendCallCount(sender, id, attempt + 1, maxRetries, retryDelay);
        LogOfPair(call, pause, rest.effects);
        LogOf(pause);
      }
    }
  }

  /** Only the first attempt counts as a first call: the recipient's id, once, when there is an attempt at all. */
  lemma {:induction false} SendFirstCalls(sender: Sender, id: int, attempt: nat, maxRetries: int, retryDelay: real)
    ensures FirstCalls(SendFrom(sender, id, attempt, maxRetries, retryDelay).effects)
         == (if attempt == 0 && maxRetries > 0 then [id] else [])
    decreases maxRetries - attempt
  {
    if attempt < maxRetries {
      var o := sender(id, attempt);
      var call := Call(id, attempt);
      var first := if attempt == 0 then [id] else [];
      LogOf(call);
      if Retries(o, attempt, maxRetries) {
        var pause := Pause(RetryPause(o, attempt, retryDelay));
        var rest := SendFrom(sender, id, attempt + 1, maxRetries, retryDelay);
        assert SendFrom(sender, id, attempt, maxRetries, retryDelay).effects == [call, pause] + rest.effects;
        SendFirstCalls(sender, id, attempt + 1, maxRetries, retryDelay);
        LogOfPair(call, pause, rest.effects);
        LogOf(pause);
        assert FirstCalls([call, pause] + rest.effects) == first + [] + [];
      }
    }
  }

  /** A send that goes through on its attempt settles the recipient as a success after one more call. */
  lemma DeliveredSettles(sender: Sender, id: int, attempt: nat, maxRetries: int, retryDelay: real)
    requires attempt < maxRetries && sender(id, attempt) == Delivered
    ensures var a := SendFrom(sender, id, attempt, maxRetries, retryDelay);
      a.verdict == Sent && CallCount(a.effects) == 1 && Pauses(a.effects) == []
  {
    LogOf(Call(id, attempt));
  }

  /** A recipient that answers every attempt with RetryAfter is counted nowhere, after one call per attempt. */
  lemma {:induction false} AllRetryAfter(sender: Sender, id: int, attempt: nat, maxRetries: int, retryDelay: real)
    requires forall k: nat | attempt <= k < maxRetries :: sender(id, k).RetryAfter?
    ensures var a := SendFrom(sender, id, attempt, maxRetries, retryDelay);
      a.verdict == Exhausted
      && CallCount(a.effects) == (if maxRetries > attempt then maxRetries - attempt else 0)
    decreases maxRetries - attempt
  {
    if attempt < maxRetries {
      var o := sender(id, attempt);
      var call := Call(id, attempt);
      var pause := Pause(RetryPause(o, attempt, retryDelay));
      var rest := SendFrom(sender, id, attempt + 1, maxRetries, retryDelay);
      assert SendFrom(sender, id, attempt, maxRetries, retryDelay) == Delay([call, pause], rest);
      AllRetryAfter(sender, id, attempt + 1, maxRetries, retryDelay);
      LogOfPair(call, pause, rest.effects);
      LogOf(call);
      LogOf(pause);
    }
  }

  /**
   * A Forbidden error ends the recipient's attempts after one call with a
   * failure carrying its text, blocked exactly when the text mentions a
   * block or a kick.
   */
  lemma ForbiddenNotRetried(sender: Sender, id: int, attempt: nat, maxRetries: int, retryDelay: real, msg: string)
    requires attempt < maxRetries && sender(id, attempt) == Forbidden(msg)
    ensures var a := SendFrom(sender, id, attempt, maxRetries, retryDelay);
      a.verdict == Failure(msg, IsBlockedMessage(msg))
      && (Kicks(a.verdict) <==> IsBlockedMessage(msg))
      && CallCount(a.effects) == 1
  {
    LogOf(Call(id, attempt));
  }

  /** The sleeps retryDelay*(from+1), retryDelay*(from+2), ... , count of them. */
  function Backoff(retryDelay: real, from: nat, count: nat): seq<real>
    decreases count
  {
    if count == 0 then [] else [retryDelay * (from + 1) as real] + Backoff(retryDelay, from + 1, count - 1)
  }

  lemma BackoffCons(retryDelay: real, from: nat, count: nat)
    requires count > 0
    ensures Backoff(retryDelay, from, count) == [retryDelay * (from + 1) as real] + Backoff(retryDelay, from + 1, count - 1)
  {
  }

  /** A generic API error before the last attempt sleeps retryDelay*(attempt+1) and tries again. */
  lemma ApiErrorRetried(sender: Sender, id: int, attempt: nat, maxRetries: int, retryDelay: real)
    requires attempt < maxRetries - 1 && sender(id, attempt).ApiError?
    ensures SendFrom(sender, id, attempt, maxRetries, retryDelay)
         == Delay([Call(id, attempt), Pause(retryDelay * (attempt + 1) as real)],
                  SendFrom(sender, id, attempt + 1, maxRetries, retryDelay))
  {
  }

  /**
   * A recipient that answers every attempt with a generic API error records
   * one failure, carrying the last attempt's message, and is not blocked.
   */
  lemma {:induction false} ApiErrorsFail(sender: Sender, id: int, attempt: nat, maxRetries: int, retryDelay: real)
    requires attempt < maxRetries
    requires forall k: nat | attempt <= k < maxRetries :: sender(id, k).ApiError?
    ensures SendFrom(sender, id, attempt, maxRetries, retryDelay).verdict
         == Failure(sender(id, maxRetries - 1).message, false)
    decreases maxRetries - attempt
  {
    assert sender(id, attempt).ApiError?;
    if attempt < maxRetries - 1 {
      ApiErrorRetried(sender, id, attempt, maxRetries, retryDelay);
      ApiErrorsFail(sender, id, attempt + 1, maxRetries, retryDelay);
    }
  }

  /** Such a recipient is tried on every attempt. */
  lemma {:induction false} ApiErrorsExhaust(sender: Sender, id: int, attempt: nat, maxRetries: int, retryDelay: real)
    requires attempt < maxRetries
    requires forall k: nat | attempt <= k < maxRetries :: sender(id, k).ApiError?
    ensures CallCount(SendFrom(sender, id, attempt, maxRetries, retryDelay).effects) == maxRetries - attempt
    decreases maxRetries - attempt
  {
    var a := SendFrom(sender, id, attempt, maxRetries, retryDelay);
    var call := Call(id, attempt);
    LogOf(call);
    if attempt < maxRetries - 1 {
      var pause := Pause(retryDelay * (attempt + 1) as real);
      var rest := SendFrom(sender, id, attempt + 1, maxRetries, retryDelay);
      ApiErrorRetried(sender, id, attempt, maxRetries, retryDelay);
      assert a.effects == [call, pause] + rest.effects;
      ApiErrorsExhaust(sender, id, attempt + 1, maxRetries, retryDelay);
      LogOfPair(call, pause, rest.effects);
      LogOf(pause);
    } else {
      assert sender(id, attempt).ApiError?;
      assert a.effects == [call];
    }
  }

  /** Between its attempts such a recipient sleeps retryDelay*1, retryDelay*2, ... */
  lemma {:induction false} ApiErrorsBackoff(sender: Sender, id: int, attempt: nat, maxRetries: int, retryDelay: real)
    requires attempt < maxRetries
    requires forall k: nat | attempt <= k < maxRetries :: sender(id, k).ApiError?
    ensures Pauses(SendFrom(sender, id, attempt, maxRetries, retryDelay).effects)
         == Backoff(retryDelay, attempt, maxRetries - 1 - attempt)
    decreases maxRetries - attempt
  {
    var a := SendFrom(sender, id, attempt, maxRetries, retryDelay);
    var call := Call(id, attempt);
    LogOf(call);
    if attempt < maxRetries - 1 {
      var pause := Pause(retryDelay * (attempt + 1) as real);
      var rest := SendFrom(sender, id, attempt + 1, maxRetries, retryDelay);
      ApiErrorRetried(sender, id, attempt, maxRetries, retryDelay);
      assert a.effects == [call, pause] + rest.effects;
      ApiErrorsBackoff(sender, id, attempt + 1, maxRetries, retryDelay);
      LogOfPair(call, pause, rest.effects);
      LogOf(pause);
      BackoffCons(retryDelay, attempt, maxRetries - 1 - attempt);
    } else {
      assert sender(id, attempt).ApiError?;
      assert a.effects == [call];
    }
  }

  // ---------------------------------------------------------------------
  // Specification of _broadcast's loop
  // ---------------------------------------------------------------------

  /** The run so far: the tally, the log and the ids asked to be marked KICKED. */
  datatype Run = Run(tally: Tally, effects: seq<Effect>, kicks: seq<int>)

  /**
   * What the loop does after a recipient's attempts: the progress callback
   * when one is given and index is a multiple of 10, then the rate-limit
   * pause when the send succeeded and the limit is positive.
   */
  function After(rateLimit: real, hasProgress: bool, t: Tally, index: nat, v: Verdict): seq<Effect> {
    (if hasProgress && index % 10 == 0 then [Progress(index, t.total, t)] else [])
    + (if v.Sent? && rateLimit > 0.0 then [Pause(rateLimit)] else [])
  }

  /** The run extended by the recipient id at 1-based position index, whose attempts were a. */
  function Step(rateLimit: real, hasProgress: bool, r: Run, id: int, index: nat, a: Attempts): Run {
    var t := Record(r.tally, id, a.verdict);
    Run(t, r.effects + (a.effects + After(rateLimit, hasProgress, t, index, a.verdict)),
        r.kicks + (if Kicks(a.verdict) then [id] else []))
  }

  /** The attempts for each id of the snapshot, in order. */
  function AttemptsFor(sender: Sender, maxRetries: int, retryDelay: real, ids: seq<int>): (plan: seq<Attempts>)
    ensures |plan| == |ids|
  {
    seq(|ids|, k requires 0 <= k < |ids| => SendFrom(sender, ids[k], 0, maxRetries, retryDelay))
  }

  /** plan[k] holds the attempts for the k-th id of the snapshot. */
  ghost predicate Planned(sender: Sender, maxRetries: int, retryDelay: real, ids: seq<int>, plan: seq<Attempts>, k: int) {
    0 <= k < |ids| && k < |plan| && plan[k] == SendFrom(sender, ids[k], 0, maxRetries, retryDelay)
  }

  lemma AttemptsForPlanned(sender: Sender, maxRetries: int, retryDelay: real, ids: seq<int>)
    ensures forall k | 0 <= k < |ids| :: Planned(sender, maxRetries, retryDelay, ids, AttemptsFor(sender, maxRetries, retryDelay, ids), k)
  {
  }

  /** The run after the first n recipients of the snapshot, plan[k] being the attempts for ids[k]. */
  function RunOver(rateLimit: real, hasProgress: bool, ids: seq<int>, plan: seq<Attempts>, n: nat): Run
    requires |plan| == |ids| && n <= |ids|
  {
    if n == 0 then Run(EmptyTally.(total := |ids|), [], [])
    else Step(rateLimit, hasProgress, RunOver(rateLimit, hasProgress, ids, plan, n - 1), ids[n - 1], n, plan[n - 1])
  }

  lemma RunOverStep(rateLimit: real, hasProgress: bool, ids: seq<int>, plan: seq<Attempts>, i: nat)
    requires |plan| == |ids| && i < |ids|
    ensures RunOver(rateLimit, hasProgress, ids, plan, i + 1)
         == Step(rateLimit, hasProgress, RunOver(rateLimit, hasProgress, ids, plan, i), ids[i], i + 1, plan[i])
  {
  }

  /** The registry after marking each of ids KICKED, in order. */
  function KickAll(m: map<int, Subscriber>, ids: seq<int>): (r: map<int, Subscriber>)
    ensures r.Keys == m.Keys
  {
    if ids == [] then m else WithState(KickAll(m, ids[..|ids| - 1]), ids[|ids| - 1], Kicked)
  }

  lemma KickAllAppend(m: map<int, Subscriber>, ids: seq<int>, id: int)
    ensures KickAll(m, ids + [id]) == WithState(KickAll(m, ids), id, Kicked)
  {
    assert (ids + [id])[..|ids|] == ids;
  }

  /**
   * Marking is what BroadcastResult reports: the registry after the marks
   * differs from the one before only in the states of blocked recipients,
   * which are KICKED.
   */
  lemma {:induction false} KickAllEffect(m: map<int, Subscriber>, ids: seq<int>)
    ensures forall k | k in m && k !in ids :: KickAll(m, ids)[k] == m[k]
    ensures forall k | k in m && k in ids :: KickAll(m, ids)[k] == m[k].(state := Kicked)
  {
    if ids != [] {
      var front := ids[..|ids| - 1];
      KickAllEffect(m, front);
      assert ids == front + [ids[|ids| - 1]];
      forall k | k in m && k in ids ensures KickAll(m, ids)[k] == m[k].(state := Kicked) {
        if k != ids[|ids| - 1] {
          assert k in front;
        }
      }
    }
  }

  /** The indices among 1..n at which the progress callback fires: the multiples of 10. */
  function Tens(n: nat): seq<nat> {
    if n == 0 then [] else Tens(n - 1) + (if n % 10 == 0 then [n] else [])
  }

  /** Those indices are 10, 20, ..., up to n: n/10 of them, in increasing order. */
  lemma {:induction false} TensAreMultiples(n: nat)
    ensures |Tens(n)| == n / 10
    ensures forall k | 0 <= k < |Tens(n)| :: Tens(n)[k] == 10 * (k + 1)
  {
    if n > 0 {
      TensAreMultiples(n - 1);
      if n % 10 == 0 {
        assert n / 10 == (n - 1) / 10 + 1;
      } else {
        assert n / 10 == (n - 1) / 10;
      }
    }
  }

  /** The number of attempts range(max_retries) allows. */
  function Budget(maxRetries: int): nat {
    if maxRetries > 0 then maxRetries else 0
  }

  /** Log views of a log extended by some attempts and what the loop does after them. */
  lemma ViewsOfVisit(before: seq<Effect>, sent: seq<Effect>, rateLimit: real, hasProgress: bool,
                     t: Tally, index: nat, v: Verdict)
    ensures var tail := After(rateLimit, hasProgress, t, index, v);
      && CallCount(before + (sent + tail)) == CallCount(before) + CallCount(sent)
      && FirstCalls(before + (sent + tail)) == FirstCalls(before) + FirstCalls(sent)
      && ProgressMarks(before + (sent + tail))
         == ProgressMarks(before) + ProgressMarks(sent) + (if hasProgress && index % 10 == 0 then [index] else [])
  {
    var progress: seq<Effect> := if hasProgress && index % 10 == 0 then [Progress(index, t.total, t)] else [];
    var pause: seq<Effect> := if v.Sent? && rateLimit > 0.0 then [Pause(rateLimit)] else [];
    var tail := progress + pause;
    var marks: seq<nat> := if hasProgress && index % 10 == 0 then [index] else [];
    assert tail == After(rateLimit, hasProgress, t, index, v);
    if progress != [] {
      LogOf(progress[0]);
    }
    if pause != [] {
      LogOf(pause[0]);
    }
    assert CallCount(tail) == 0 by {
      CallCountConcat(progress, pause);
    }
    assert FirstCalls(tail) == [] by {
      FirstCallsConcat(progress, pause);
    }
    assert ProgressMarks(tail) == marks by {
      ProgressMarksConcat(progress, pause);
    }
    assert CallCount(before + (sent + tail)) == CallCount(before) + CallCount(sent) by {
      CallCountConcat(before, sent + tail);
      CallCountConcat(sent, tail);
    }
    assert FirstCalls(before + (sent + tail)) == FirstCalls(before) + FirstCalls(sent) by {
      FirstCallsConcat(before, sent + tail);
      FirstCallsConcat(sent, tail);
    }
    assert ProgressMarks(before + (sent + tail)) == ProgressMarks(before) + ProgressMarks(sent) + marks by {
      ProgressMarksConcat(before, sent + tail);
      ProgressMarksConcat(sent, tail);
      AppendAssoc(ProgressMarks(before), ProgressMarks(sent), marks);
    }
  }

  /**
   * After n recipients: total is the snapshot's length, successful + failed
   * is at most n, the KICKED marks are exactly blocked_users, and every id
   * recorded plan blocked or failed is among the first n.
   */
  lemma {:induction false} RunTally(rateLimit: real, hasProgress: bool, ids: seq<int>, plan: seq<Attempts>, n: nat)
    requires |plan| == |ids| && n <= |ids|
    ensures var r := RunOver(rateLimit, hasProgress, ids, plan, n);
      && r.tally.total == |ids|
      && r.tally.successful + r.tally.failed <= n
      && r.kicks == r.tally.blockedUsers
      && (forall x | x in r.tally.blockedUsers :: x in ids[..n])
      && (forall x | x in r.tally.errors :: x in ids[..n])
  {
    if n > 0 {
      var prev := RunOver(rateLimit, hasProgress, ids, plan, n - 1);
      RunTally(rateLimit, hasProgress, ids, plan, n - 1);
      var id := ids[n - 1];
      var v := plan[n - 1].verdict;
      var t := Record(prev.tally, id, v);
      var r := RunOver(rateLimit, hasProgress, ids, plan, n);
      assert r.tally == t && r.kicks == prev.kicks + (if Kicks(v) then [id] else []);
      assert ids[..n] == ids[..n - 1] + [id];
      forall x | x in t.errors ensures x in ids[..n] {
        if x != id {
          assert x in prev.tally.errors;
        }
      }
      forall x | x in t.blockedUsers ensures x in ids[..n] {
        if x != id {
          assert x in prev.tally.blockedUsers;
        }
      }
    } else {
      var r := RunOver(rateLimit, hasProgress, ids, plan, 0);
      assert r.tally == EmptyTally.(total := |ids|) && r.kicks == [];
    }
  }

  /**
   * What each recipient's attempts leave in the log, for a plan made by
   * AttemptsFor: the first attempt (when max_retries > 0), at most
   * max_retries calls, and no progress report.
   */
  lemma PlanViews(sender: Sender, maxRetries: int, retryDelay: real, ids: seq<int>)
    ensures var plan := AttemptsFor(sender, maxRetries, retryDelay, ids);
      && (maxRetries > 0 ==> forall k | 0 <= k < |plan| :: FirstCalls(plan[k].effects) == [ids[k]])
      && (forall k | 0 <= k < |plan| :: CallCount(plan[k].effects) <= Budget(maxRetries))
      && (forall k | 0 <= k < |plan| :: ProgressMarks(plan[k].effects) == [])
  {
    var plan := AttemptsFor(sender, maxRetries, retryDelay, ids);
    forall k | 0 <= k < |plan|
      ensures maxRetries > 0 ==> FirstCalls(plan[k].effects) == [ids[k]]
      ensures CallCount(plan[k].effects) <= Budget(maxRetries)
      ensures ProgressMarks(plan[k].effects) == []
    {
      SendFirstCalls(sender, ids[k], 0, maxRetries, retryDelay);
      SendCallCount(sender, ids[k], 0, maxRetries, retryDelay);
      SendNoProgress(sender, ids[k], 0, maxRetries, retryDelay);
    }
  }

  /** One recipient more: its first attempt is appended, its calls are added up. */
  lemma CallsStep(rateLimit: real, hasProgress: bool, r: Run, id: int, n: nat, a: Attempts)
    ensures var s := Step(rateLimit, hasProgress, r, id, n, a);
      && FirstCalls(s.effects) == FirstCalls(r.effects) + FirstCalls(a.effects)
      && CallCount(s.effects) == CallCount(r.effects) + CallCount(a.effects)
  {
    var t := Record(r.tally, id, a.verdict);
    ViewsOfVisit(r.effects, a.effects, rateLimit, hasProgress, t, n, a.verdict);
  }

  /** A log without calls has no first attempts. */
  lemma {:induction false} NoCallsNoFirst(effects: seq<Effect>)
    requires CallCount(effects) == 0
    ensures FirstCalls(effects) == []
  {
    if effects != [] {
      NoCallsNoFirst(effects[1..]);
    }
  }

  lemma BoundStep(c1: nat, c2: nat, n: nat, budget: nat)
    requires n > 0 && c1 <= (n - 1) * budget && c2 <= budget
    ensures c1 + c2 <= n * budget
  {
    assert n * budget == (n - 1) * budget + budget;
  }

  lemma FirstCallsStep(rateLimit: real, hasProgress: bool, r: Run, ids: seq<int>, n: nat, a: Attempts)
    requires 0 < n <= |ids|
    requires FirstCalls(r.effects) == ids[..n - 1] && FirstCalls(a.effects) == [ids[n - 1]]
    ensures FirstCalls(Step(rateLimit, hasProgress, r, ids[n - 1], n, a).effects) == ids[..n]
  {
    CallsStep(rateLimit, hasProgress, r, ids[n - 1], n, a);
    TakeSnoc(ids, n);
  }

  /** Recipients are first tried once each, in snapshot order. */
  lemma {:induction false} RunFirstCalls(rateLimit: real, hasProgress: bool, ids: seq<int>, plan: seq<Attempts>, n: nat)
    requires |plan| == |ids| && n <= |ids|
    requires forall k | 0 <= k < |plan| :: FirstCalls(plan[k].effects) == [ids[k]]
    ensures FirstCalls(RunOver(rateLimit, hasProgress, ids, plan, n).effects) == ids[..n]
  {
    if n > 0 {
      RunFirstCalls(rateLimit, hasProgress, ids, plan, n - 1);
      assert FirstCalls(plan[n - 1].effects) == [ids[n - 1]];
      FirstCallsStep(rateLimit, hasProgress, RunOver(rateLimit, hasProgress, ids, plan, n - 1), ids, n, plan[n - 1]);
    } else {
      assert RunOver(rateLimit, hasProgress, ids, plan, 0).effects == [] && ids[..0] == [];
    }
  }

  /** The sender is called at most max_retries times per recipient. */
  lemma {:induction false} RunCallCount(maxRetries: int, rateLimit: real, hasProgress: bool,
                                        ids: seq<int>, plan: seq<Attempts>, n: nat)
    requires |plan| == |ids| && n <= |ids|
    requires forall k | 0 <= k < |plan| :: CallCount(plan[k].effects) <= Budget(maxRetries)
    ensures CallCount(RunOver(rateLimit, hasProgress, ids, plan, n).effects) <= n * Budget(maxRetries)
  {
    if n > 0 {
      RunCallCount(maxRetries, rateLimit, hasProgress, ids, plan, n - 1);
      var prev := RunOver(rateLimit, hasProgress, ids, plan, n - 1);
      var a := plan[n - 1];
      CallsStep(rateLimit, hasProgress, prev, ids[n - 1], n, a);
      BoundStep(CallCount(prev.effects), CallCount(a.effects), n, Budget(maxRetries));
    } else {
      assert RunOver(rateLimit, hasProgress, ids, plan, 0).effects == [];
    }
  }

  /** One recipient more: its attempts report no progress, the loop reports index n when due. */
  lemma ProgressStep(rateLimit: real, hasProgress: bool, r: Run, id: int, n: nat, a: Attempts)
    requires n > 0 && ProgressMarks(a.effects) == []
    requires ProgressMarks(r.effects) == (if hasProgress then Tens(n - 1) else [])
    ensures ProgressMarks(Step(rateLimit, hasProgress, r, id, n, a).effects) == (if hasProgress then Tens(n) else [])
  {
    var t := Record(r.tally, id, a.verdict);
    ViewsOfVisit(r.effects, a.effects, rateLimit, hasProgress, t, n, a.verdict);
    var marks := ProgressMarks(r.effects);
    assert marks + [] == marks;
  }

  /** The progress callback sees exactly the multiples of 10 up to n, when there is one. */
  lemma {:induction false} RunProgress(rateLimit: real, hasProgress: bool, ids: seq<int>, plan: seq<Attempts>, n: nat)
    requires |plan| == |ids| && n <= |ids|
    requires forall k | 0 <= k < |plan| :: ProgressMarks(plan[k].effects) == []
    ensures ProgressMarks(RunOver(rateLimit, hasProgress, ids, plan, n).effects) == (if hasProgress then Tens(n) else [])
  {
    if n > 0 {
      RunProgress(rateLimit, hasProgress, ids, plan, n - 1);
      ProgressStep(rateLimit, hasProgress, RunOver(rateLimit, hasProgress, ids, plan, n - 1), ids[n - 1], n, plan[n - 1]);
    } else {
      assert RunOver(rateLimit, hasProgress, ids, plan, 0).effects == [];
    }
  }

  /**
   * The log of a whole run of _broadcast over the snapshot ids: every
   * recipient is first tried once, in snapshot order (nobody when
   * max_retries <= 0), the sender is called at most max_retries times per
   * recipient, and the progress callback sees exactly 10, 20, ... up to
   * the snapshot's length.
   */
  lemma BroadcastLog(sender: Sender, maxRetries: int, retryDelay: real, rateLimit: real, hasProgress: bool, ids: seq<int>)
    ensures var r := RunOver(rateLimit, hasProgress, ids, AttemptsFor(sender, maxRetries, retryDelay, ids), |ids|);
      && FirstCalls(r.effects) == (if maxRetries > 0 then ids else [])
      && CallCount(r.effects) <= |ids| * Budget(maxRetries)
      && ProgressMarks(r.effects) == (if hasProgress then Tens(|ids|) else [])
  {
    var plan := AttemptsFor(sender, maxRetries, retryDelay, ids);
    PlanViews(sender, maxRetries, retryDelay, ids);
    RunCallCount(maxRetries, rateLimit, hasProgress, ids, plan, |ids|);
    RunProgress(rateLimit, hasProgress, ids, plan, |ids|);
    var r := RunOver(rateLimit, hasProgress, ids, plan, |ids|);
    if maxRetries > 0 {
      RunFirstCalls(rateLimit, hasProgress, ids, plan, |ids|);
      assert ids[..|ids|] == ids;
    } else {
      assert |ids| * Budget(maxRetries) == 0;
      NoCallsNoFirst(r.effects);
    }
  }

  /**
   * The tally of a whole run: total is the snapshot's length, at most one
   * success or failure per recipient, blocked_users is exactly the ids asked
   * to be marked KICKED, and only recipients of the snapshot appear in it.
   */
  lemma BroadcastTally(sender: Sender, maxRetries: int, retryDelay: real, rateLimit: real, hasProgress: bool, ids: seq<int>)
    ensures var r := RunOver(rateLimit, hasProgress, ids, AttemptsFor(sender, maxRetries, retryDelay, ids), |ids|);
      && r.tally.total == |ids|
      && r.tally.successful + r.tally.failed <= |ids|
      && r.kicks == r.tally.blockedUsers
      && (forall x | x in r.tally.blockedUsers :: x in ids)
      && (forall x | x in r.tally.errors :: x in ids)
  {
    RunTally(rateLimit, hasProgress, ids, AttemptsFor(sender, maxRetries, retryDelay, ids), |ids|);
    assert ids[..|ids|] == ids;
  }

  // ---------------------------------------------------------------------
  // Senders built by the broadcast_* wrappers
  // ---------------------------------------------------------------------

  /** The message each wrapper sends. */
  datatype Content =
    | Text(text: string, linkPreview: Value)
    | Photo(photo: string, caption: Option<string>)
    | Video(video: string, caption: Option<string>)
    | Document(document: string, caption: Option<string>)
    | Copy(fromChatId: int, messageId: int, caption: Option<string>)

  /** The keyword arguments every wrapper passes through unchanged. */
  datatype Options = Options(parseMode: Option<string>, replyMarkup: Value, disableNotification: bool,
                             protectContent: bool, extra: map<string, Value>)

  /** One Bot API request: the method, the target chat and the arguments. */
  datatype Request = Request(apiMethod: string, chatId: int, content: Content, options: Options)

  function ApiMethod(c: Content): string {
    match c
    case Text(_, _) => "send_message"
    case Photo(_, _) => "send_photo"
    case Video(_, _) => "send_video"
    case Document(_, _) => "send_document"
    case Copy(_, _, _) => "copy_message"
  }

  /** The request the wrapper's sender issues for one chat. */
  function RequestFor(c: Content, o: Options, chatId: int): (q: Request)
    ensures q.chatId == chatId && q.content == c && q.options == o
  {
    Request(ApiMethod(c), chatId, c, o)
  }

  /** The sender closure: every recipient gets the same request but for its chat id. */
  function SenderFor(c: Content, o: Options, transport: (Request, nat) -> SendOutcome): Sender {
    (chatId: int, attempt: nat) => transport(RequestFor(c, o, chatId), attempt)
  }

  /** Requests for two recipients differ exactly in the chat id; each wrapper has its own API method. */
  lemma RequestsPerRecipient(c: Content, o: Options, a: int, b: int, c2: Content)
    ensures RequestFor(c, o, a) == RequestFor(c, o, b) <==> a == b
    ensures RequestFor(c, o, a).(chatId := b) == RequestFor(c, o, b)
    ensures ApiMethod(c) == ApiMethod(c2) <==>
      (c.Text? == c2.Text? && c.Photo? == c2.Photo?
       && c.Video? == c2.Video? && c.Document? == c2.Document? && c.Copy? == c2.Copy?)
  {
  }

  // ---------------------------------------------------------------------
  // The service
  // ---------------------------------------------------------------------

  datatype Outcome = Done(result: BroadcastResult) | Raised(error: BroadcastError)

  function Filter(onlyActive: bool): Option<SubscriberState> {
    if onlyActive then Some(Member) else None
  }

  class BroadcastService {
    const storage: RedisStorage
    const rateLimit: real
    const maxRetries: int
    const retryDelay: real
    var inProgress: bool
    ghost var log: seq<Effect>

    constructor (storage: RedisStorage, rateLimit: real, maxRetries: int, retryDelay: real)
      ensures this.storage == storage && this.rateLimit == rateLimit
      ensures this.maxRetries == maxRetries && this.retryDelay == retryDelay
      ensures !inProgress && log == []
    {
      this.storage := storage;
      this.rateLimit := rateLimit;
      this.maxRetries := maxRetries;
      this.retryDelay := retryDelay;
      inProgress := false;
      log := [];
    }

    function IsBroadcasting(): (b: bool)
      reads this
      ensures b <==> inProgress
    {
      inProgress
    }

    /**
     * _send_with_retry: the attempts for one recipient plan SendFrom
     * describes them, recorded in the result; a KICKED mark is written when
     * asked for, and a storage error while writing it propagates (after the
     * failure was recorded).
     */
    method SendWithRetry(sender: Sender, id: int, result: BroadcastResult) returns (r: Reply<bool>)
      requires storage.Valid()
      modifies this`log, result, storage
      ensures storage.Valid()
      ensures var a := SendFrom(sender, id, 0, maxRetries, retryDelay);
        && result.Value() == Record(old(result.Value()), id, a.verdict)
        && log == old(log) + a.effects
        && (r.Ok? ==> r.value == a.verdict.Sent?)
        && (!Kicks(a.verdict) ==> r.Ok? && unchanged(storage))
        && (Kicks(a.verdict) && r.Ok? ==> storage.Subscribers() == WithState(old(storage.Subscribers()), id, Kicked))
        && (r.Failed? ==> Kicks(a.verdict) && storage.Subscribers() == old(storage.Subscribers()))
    {
      ghost var t0 := result.Value();
      ghost var a := SendFrom(sender, id, 0, maxRetries, retryDelay);
      ghost var rest := a;
      assert old(log) + a.effects == log + rest.effects;
      var attempt: nat := 0;
      while attempt < maxRetries
        invariant result.Value() == t0 && unchanged(storage)
        invariant rest == SendFrom(sender, id, attempt, maxRetries, retryDelay)
        invariant rest.verdict == a.verdict
        invariant log + rest.effects == old(log) + a.effects
        decreases maxRetries - attempt
      {
        var outcome := sender(id, attempt);
        ghost var call := Call(id, attempt);
        ghost var logBefore := log;
        log := log + [call];
        if Retries(outcome, attempt, maxRetries) {
          ghost var pause := Pause(RetryPause(outcome, attempt, retryDelay));
          ghost var next := SendFrom(sender, id, attempt + 1, maxRetries, retryDelay);
          assert rest == Delay([call, pause], next);
          log := log + [pause];
          calc {
            log + next.effects;
            (logBefore + [call] + [pause]) + next.effects;
            { AppendAssoc(logBefore + [call], [pause], next.effects); }
            (logBefore + [call]) + ([pause] + next.effects);
            { AppendAssoc(logBefore, [call], [pause] + next.effects); }
            logBefore + ([call] + ([pause] + next.effects));
            { assert [call] + ([pause] + next.effects) == [call, pause] + next.effects; }
            logBefore + rest.effects;
          }
          rest := next;
        } else {
          assert rest == Attempts(Settle(outcome), [call]);
          assert log == old(log) + a.effects;
          match outcome {
            case Delivered =>
              result.AddSuccess();
              return Ok(true);
            case Forbidden(msg) =>
              var blocked := IsBlockedMessage(msg);
              result.AddFailure(id, msg, blocked);
              if blocked {
                var marked := storage.UpdateSubscriberState(id, Kicked);
                if marked.Failed? {
                  return Failed;
                }
              }
              return Ok(false);
            case RetryAfter(n) =>
              assert false;
            case ApiError(msg) =>
              result.AddFailure(id, msg, false);
              return Ok(false);
            case Unexpected(msg) =>
              result.AddFailure(id, msg, false);
              return Ok(false);
          }
        }
        attempt := attempt + 1;
      }
      assert rest.effects == [];
      return Ok(false);
    }

    /**
     * One pass of the loop in _broadcast for the recipient at 1-based
     * position index: the attempts, the progress callback on every tenth
     * recipient, the rate-limit pause after a success. It takes the run so
     * far (the log since log0, the registry since subs0) one Step further.
     */
    method VisitRecipient(sender: Sender, id: int, index: nat, hasProgress: bool, result: BroadcastResult,
                          ghost a: Attempts, ghost run: Run, ghost log0: seq<Effect>, ghost subs0: map<int, Subscriber>)
      returns (r: Reply<()>)
      requires storage.Valid()
      requires a == SendFrom(sender, id, 0, maxRetries, retryDelay)
      requires result.Value() == run.tally && log == log0 + run.effects
      requires storage.Subscribers() == KickAll(subs0, run.kicks)
      modifies this`log, result, storage
      ensures storage.Valid()
      ensures var s := Step(rateLimit, hasProgress, run, id, index, a);
        && result.Value() == s.tally
        && (r.Ok? ==> log == log0 + s.effects && storage.Subscribers() == KickAll(subs0, s.kicks))
    {
      ghost var t := Record(run.tally, id, a.verdict);
      ghost var subsBefore := storage.Subscribers();
      var success := SendWithRetry(sender, id, result);
      if success.Failed? {
        return Failed;
      }
      ghost var logSent := log;
      ghost var progress: seq<Effect> := if hasProgress && index % 10 == 0 then [Progress(index, t.total, t)] else [];
      ghost var pause: seq<Effect> := if a.verdict.Sent? && rateLimit > 0.0 then [Pause(rateLimit)] else [];
      if hasProgress && index % 10 == 0 {
        log := log + [Progress(index, result.total, result.Value())];
      }
      if success.value && rateLimit > 0.0 {
        log := log + [Pause(rateLimit)];
      }
      assert log == logSent + progress + pause;
      ghost var tail := After(rateLimit, hasProgress, t, index, a.verdict);
      assert tail == progress + pause;
      assert log == log0 + (run.effects + (a.effects + tail)) by {
        AppendAssoc(logSent, progress, pause);
        AppendAssoc(old(log), a.effects, tail);
        AppendAssoc(log0, run.effects, a.effects + tail);
      }
      if Kicks(a.verdict) {
        KickAllAppend(subs0, run.kicks, id);
      } else {
        assert storage.Subscribers() == subsBefore;
        assert run.kicks + [] == run.kicks;
      }
      r := Ok(());
    }

    /**
     * _broadcast: refused while another run is in progress (before any
     * storage access); otherwise the flag is held for the run and cleared
     * whatever happens.
     */
    method Broadcast(sender: Sender, onlyActive: bool, hasProgress: bool) returns (r: Outcome, ghost ids: seq<int>)
      requires storage.Valid()
      modifies this, storage
      ensures storage.Valid()
      ensures old(inProgress) ==>
        r == Raised(BroadcastInProgress) && inProgress && unchanged(storage) && log == old(log)
      ensures !old(inProgress) ==> !inProgress && r != Raised(BroadcastInProgress)
      ensures r.Raised? && r.error == StorageError ==> !old(inProgress)
      ensures r.Done? ==>
        && !old(inProgress) && fresh(r.result)
        && NoDuplicates(ids) && (set x | x in ids) == old(storage.Selected(Filter(onlyActive)))
        && var run := RunOver(rateLimit, hasProgress, ids, AttemptsFor(sender, maxRetries, retryDelay, ids), |ids|);
           r.result.Value() == run.tally
           && log == old(log) + run.effects
           && storage.Subscribers() == KickAll(old(storage.Subscribers()), run.kicks)
    {
      if inProgress {
        return Raised(BroadcastInProgress), [];
      }
      inProgress := true;
      r, ids := Dispatch(sender, onlyActive, hasProgress);
      inProgress := false;
    }

    /**
     * The body of _broadcast's try block: the subscriber ids are read once;
     * each is tried once, in that order, and the result, the log and the
     * registry are those of RunOver over the snapshot. A storage error
     * propagates and ends the run.
     */
    method Dispatch(sender: Sender, onlyActive: bool, hasProgress: bool) returns (r: Outcome, ghost ids: seq<int>)
      requires storage.Valid()
      modifies this`log, storage
      ensures storage.Valid()
      ensures r.Raised? ==> r.error == StorageError
      ensures r.Done? ==>
        && fresh(r.result)
        && NoDuplicates(ids) && (set x | x in ids) == old(storage.Selected(Filter(onlyActive)))
        && var run := RunOver(rateLimit, hasProgress, ids, AttemptsFor(sender, maxRetries, retryDelay, ids), |ids|);
           r.result.Value() == run.tally
           && log == old(log) + run.effects
           && storage.Subscribers() == KickAll(old(storage.Subscribers()), run.kicks)
    {
      var result := new BroadcastResult();
      var snapshot := storage.GetAllSubscriberIds(Filter(onlyActive));
      if snapshot.Failed? {
        return Raised(StorageError), [];
      }
      var subscriberIds := snapshot.value;
      ids := subscriberIds;
      result.SetTotal(|subscriberIds|);
      assert storage.Subscribers() == old(storage.Subscribers());
      ghost var plan := AttemptsFor(sender, maxRetries, retryDelay, subscriberIds);
      AttemptsForPlanned(sender, maxRetries, retryDelay, subscriberIds);
      var completed := SendAll(sender, subscriberIds, plan, hasProgress, result);
      if !completed {
        return Raised(StorageError), subscriberIds;
      }
      r := Done(result);
    }

    /**
     * The loop of _broadcast: each id of the snapshot in turn, with its
     * 1-based position, plan[k] being what sending to ids[k] amounts to; false
     * when a storage error ended the loop early.
     */
    method SendAll(sender: Sender, ids: seq<int>, ghost plan: seq<Attempts>, hasProgress: bool, result: BroadcastResult)
      returns (completed: bool)
      requires storage.Valid()
      requires |plan| == |ids| && forall k | 0 <= k < |ids| :: Planned(sender, maxRetries, retryDelay, ids, plan, k)
      requires result.Value() == EmptyTally.(total := |ids|)
      modifies this`log, storage, result
      ensures storage.Valid()
      ensures completed ==>
        var run := RunOver(rateLimit, hasProgress, ids, plan, |ids|);
        && result.Value() == run.tally
        && log == old(log) + run.effects
        && storage.Subscribers() == KickAll(old(storage.Subscribers()), run.kicks)
    {
      ghost var log0 := log;
      ghost var subs0 := storage.Subscribers();
      assert log == log0 + [];
      var i := 0;
      ghost var run := RunOver(rateLimit, hasProgress, ids, plan, 0);
      while i < |ids|
        invariant 0 <= i <= |ids|
        invariant storage.Valid()
        invariant run == RunOver(rateLimit, hasProgress, ids, plan, i)
        invariant result.Value() == run.tally
        invariant log == log0 + run.effects
        invariant storage.Subscribers() == KickAll(subs0, run.kicks)
      {
        assert Planned(sender, maxRetries, retryDelay, ids, plan, i);
        var sent := VisitRecipient(sender, ids[i], i + 1, hasProgress, result, plan[i], run, log0, subs0);
        if sent.Failed? {
          return false;
        }
        RunOverStep(rateLimit, hasProgress, ids, plan, i);
        run := Step(rateLimit, hasProgress, run, ids[i], i + 1, plan[i]);
        i := i + 1;
      }
      return true;
    }

    /** get_subscriber_count: the number of subscribers the filter selects. */
    method GetSubscriberCount(onlyActive: bool) returns (r: Reply<int>)
      requires storage.Valid()
      modifies storage`calls
      ensures storage.Valid()
      ensures r.Ok? <==> !storage.fault(old(storage.calls))
      ensures r.Ok? ==> r.value == |storage.Selected(Filter(onlyActive))|
    {
      r := storage.GetSubscribersCount(Filter(onlyActive));
    }
  }
}
