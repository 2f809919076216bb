/*
 * BroadcastUIManager: the menu's windows and actions. Each window method
 * sends one screen (a text and an inline keyboard) and moves the FSM to
 * its own state; the action methods read the FSM data, store the message,
 * the chosen time and its buttons, start a broadcast now or schedule one
 * in the job store the BroadcastScheduler shares.
 *
 * The screens sent, the preview copies, the broadcasts handed to
 * asyncio.create_task and the return-callback invocations are ghost logs
 * on the manager; message ids are parameters, and deleting the previous
 * window is recorded as a request.
 */
module UiManager {
  import opened Common
  import opened Entries
  import opened UiUtils
  import S = Scheduler
  import K = UiKeyboards
  import T = UiTexts
  import M = Models

  // ---------------------------------------------------------------------
  // The list of scheduled broadcasts
  // ---------------------------------------------------------------------

  /** A list entry: the run time as text and the callback data "job:<id>". */
  type Item = (string, string)

  /** Python's `a <= b` on str: code point by code point, a prefix first. */
  predicate LexLe(a: string, b: string)
    decreases |a|
  {
    |a| == 0 || (|b| > 0 && (a[0] < b[0] || (a[0] == b[0] && LexLe(a[1..], b[1..]))))
  }

  lemma {:induction false} LexTotal(a: string, b: string)
    ensures LexLe(a, b) || LexLe(b, a)
    decreases |a|
  {
    if |a| > 0 && |b| > 0 && a[0] == b[0] {
      LexTotal(a[1..], b[1..]);
    }
  }

  lemma {:induction false} LexTrans(a: string, b: string, c: string)
    requires LexLe(a, b) && LexLe(b, c)
    ensures LexLe(a, c)
    decreases |a|
  {
    if |a| > 0 && a[0] == b[0] && b[0] == c[0] {
      LexTrans(a[1..], b[1..], c[1..]);
    }
  }

  predicate SortedByTime(items: seq<Item>) {
    forall i, j :: 0 <= i < j < |items| ==> LexLe(items[i].0, items[j].0)
  }

  /** One step of a stable insertion sort: x goes after every entry whose key is not greater. */
  function InsertItem(sorted: seq<Item>, x: Item): (r: seq<Item>)
    ensures multiset(r) == multiset(sorted) + multiset{x}
  {
    if sorted == [] then [x]
    else
      var n := |sorted| - 1;
      assert sorted == sorted[..n] + [sorted[n]];
      if LexLe(sorted[n].0, x.0) then sorted + [x]
      else InsertItem(sorted[..n], x) + [sorted[n]]
  }

  /** sorted(items, key=lambda x: x[0]), which is stable. */
  function SortByTime(items: seq<Item>): (r: seq<Item>)
    ensures multiset(r) == multiset(items)
  {
    if items == [] then []
    else
      var n := |items| - 1;
      assert items == items[..n] + [items[n]];
      InsertItem(SortByTime(items[..n]), items[n])
  }

  lemma {:induction false} InsertSorted(sorted: seq<Item>, x: Item)
    requires SortedByTime(sorted)
    ensures SortedByTime(InsertItem(sorted, x))
  {
    if sorted != [] {
      var n := |sorted| - 1;
      var last := sorted[n];
      if LexLe(last.0, x.0) {
        var r := sorted + [x];
        forall i, j | 0 <= i < j < |r| ensures LexLe(r[i].0, r[j].0) {
          if j == n + 1 && i < n {
            LexTrans(r[i].0, last.0, x.0);
          }
        }
      } else {
        LexTotal(last.0, x.0);
        var front := sorted[..n];
        InsertSorted(front, x);
        var r0 := InsertItem(front, x);
        var r := r0 + [last];
        forall i | 0 <= i < |r0| ensures LexLe(r0[i].0, last.0) {
          assert r0[i] in multiset(r0);
          if r0[i] != x {
            assert r0[i] in multiset(front);
            var k :| 0 <= k < |front| && front[k] == r0[i];
            assert sorted[k] == front[k];
          }
        }
        forall i, j | 0 <= i < j < |r| ensures LexLe(r[i].0, r[j].0) {
          if j == |r0| {
            assert r[i] == r0[i];
          } else {
            assert r[i] == r0[i] && r[j] == r0[j];
          }
        }
      }
    }
  }

  /** The list is in time order and holds exactly the entries it was given. */
  lemma {:induction false} SortByTimeSpec(items: seq<Item>)
    ensures SortedByTime(SortByTime(items)) && multiset(SortByTime(items)) == multiset(items)
  {
    if items != [] {
      var n := |items| - 1;
      SortByTimeSpec(items[..n]);
      InsertSorted(SortByTime(items[..n]), items[n]);
    }
  }

  /** The jobs whose trigger has a run date, as list entries, in job-store order. */
  function JobItems(jobs: seq<Entry<S.Job>>): seq<Item> {
    if jobs == [] then []
    else
      var rest := JobItems(jobs[1..]);
      var job := jobs[0].value;
      if job.runDate.Some? then [(MinuteText(job.runDate.value), "job:" + jobs[0].key)] + rest else rest
  }

  /**
   * Every job with a run date is listed under its time and id, and every
   * entry comes from such a job.
   */
  lemma {:induction false} JobItemsSpec(jobs: seq<Entry<S.Job>>, id: string, x: Item)
    requires Unique(jobs)
    ensures Get(jobs, id).Some? && Get(jobs, id).value.runDate.Some? ==>
      (MinuteText(Get(jobs, id).value.runDate.value), "job:" + id) in JobItems(jobs)
    ensures x in JobItems(jobs) ==>
      exists k ::
        x.1 == "job:" + k && Get(jobs, k).Some? && Get(jobs, k).value.runDate.Some?
        && x.0 == MinuteText(Get(jobs, k).value.runDate.value)
  {
    if jobs != [] {
      JobItemsSpec(jobs[1..], id, x);
      var e := jobs[0];
      if x in JobItems(jobs) && x !in JobItems(jobs[1..]) {
        assert x.1 == "job:" + e.key && Get(jobs, e.key).Some?;
      } else if x in JobItems(jobs[1..]) {
        var k :| x.1 == "job:" + k && Get(jobs[1..], k).Some? && Get(jobs[1..], k).value.runDate.Some?
          && x.0 == MinuteText(Get(jobs[1..], k).value.runDate.value);
        assert k != e.key;
        assert Get(jobs, k) == Get(jobs[1..], k);
      }
    }
  }

  // ---------------------------------------------------------------------
  // Pagination
  // ---------------------------------------------------------------------

  const PageSize: nat := 5

  function Clamp(i: int, n: nat): nat {
    if i < 0 then 0 else if i > n then n else i
  }

  /** s[a:b] with a step of 1: a negative bound counts from the end, both are clamped. */
  function PySlice<X>(s: seq<X>, a: int, b: int): seq<X> {
    var lo := Clamp(if a < 0 then a + |s| else a, |s|);
    var hi := Clamp(if b < 0 then b + |s| else b, |s|);
    if lo < hi then s[lo..hi] else []
  }

  /** items[(page - 1) * page_size : page * page_size]. */
  function PageItems(items: seq<Item>, page: int): seq<Item> {
    PySlice(items, (page - 1) * PageSize, page * PageSize)
  }

  /** max(1, (n + page_size - 1) // page_size). */
  function TotalPages(n: nat): nat {
    var t := (n + PageSize - 1) / PageSize;
    if t < 1 then 1 else t
  }

  /** There is always a page, and the last page is the one that holds the last entry. */
  lemma TotalPagesSpec(n: nat)
    ensures TotalPages(n) >= 1
    ensures n == 0 ==> TotalPages(n) == 1
    ensures n > 0 ==> (TotalPages(n) - 1) * PageSize < n <= TotalPages(n) * PageSize
  {
  }

  function Min(a: int, b: int): int {
    if a < b then a else b
  }

  /** A page from 1 on is the run of at most five entries that starts at (page - 1) * 5. */
  lemma PageItemsFrom(items: seq<Item>, page: int)
    requires page >= 1
    ensures var lo := Min((page - 1) * PageSize, |items|);
      PageItems(items, page) == items[lo..Min(page * PageSize, |items|)]
    ensures |PageItems(items, page)| <= PageSize
  {
  }

  /** Pages 1..k, one after the other. */
  function Pages(items: seq<Item>, k: nat): seq<Item> {
    if k == 0 then [] else Pages(items, k - 1) + PageItems(items, k)
  }

  lemma {:induction false} PagesPrefix(items: seq<Item>, k: nat)
    ensures Pages(items, k) == items[..Min(k * PageSize, |items|)]
  {
    if k > 0 {
      PagesPrefix(items, k - 1);
      PageItemsFrom(items, k);
      var a := Min((k - 1) * PageSize, |items|);
      var b := Min(k * PageSize, |items|);
      assert items[..a] + items[a..b] == items[..b];
    }
  }

  /** Read page by page up to total_pages, the list shows every entry once, in order. */
  lemma PagesCoverList(items: seq<Item>)
    ensures Pages(items, TotalPages(|items|)) == items
  {
    TotalPagesSpec(|items|);
    PagesPrefix(items, TotalPages(|items|));
    assert items[..|items|] == items;
  }

  /** A page below 1 is empty for page 0; page -1 and below slice from the end, as Python does. */
  lemma PageZero(items: seq<Item>)
    ensures PageItems(items, 0) == []
  {
  }

  /** Page p of the list shows only scheduled jobs that have a run date, under their own time. */
  lemma PageShowsJobs(jobs: seq<Entry<S.Job>>, page: int, x: Item)
    requires Unique(jobs)
    requires x in PageItems(SortByTime(JobItems(jobs)), page)
    ensures exists k ::
      x.1 == "job:" + k && Get(jobs, k).Some? && Get(jobs, k).value.runDate.Some?
      && x.0 == MinuteText(Get(jobs, k).value.runDate.value)
  {
    var items := SortByTime(JobItems(jobs));
    var p := PageItems(items, page);
    var i :| 0 <= i < |p| && p[i] == x;
    assert x in items;
    assert x in multiset(items);
    assert x in JobItems(jobs);
    JobItemsSpec(jobs, "", x);
  }

  // ---------------------------------------------------------------------
  // Screens and the FSM data the windows read
  // ---------------------------------------------------------------------

  /** A window's text: texts.get(key, **kwargs), or a text the caller passed. */
  datatype ScreenText = Keyed(texts: T.Texts, key: T.TextKey, kwargs: map<string, string>) | Given(text: string)

  /** Which of the keyboards' builders a window uses. */
  datatype Keyboard =
    | BackKb
    | BackDeleteKb
    | BackConfirmKb
    | BackSkipKb
    | BackNextKb
    | SendOptionsKb
    | ListKb(items: seq<Item>, page: int, totalPages: int)

  /** One message the menu sends: its text and its inline keyboard, in the manager's language. */
  datatype Screen = Screen(text: ScreenText, keyboards: K.Keyboards, keyboard: Keyboard)

  /** The text a screen shows; None where texts.get raises on a malformed template. */
  function Rendered(t: ScreenText): Option<string> {
    match t
    case Keyed(texts, key, kwargs) => T.Get(texts, T.KeyName(key), kwargs)
    case Given(s) => Some(s)
  }

  /** The inline keyboard a screen carries. */
  function Markup(s: Screen): K.Markup {
    var k := s.keyboards;
    match s.keyboard
    case BackKb => K.Back(k)
    case BackDeleteKb => K.BackDelete(k)
    case BackConfirmKb => K.BackConfirm(k)
    case BackSkipKb => K.BackSkip(k)
    case BackNextKb => K.BackNext(k)
    case SendOptionsKb => K.SendOptions(k)
    case ListKb(items, page, total) => K.BroadcastsList(k, items, page, total)
  }

  const UiMessageId := "ui_message_id"

  /** The id of the window to delete: ui_message_id when it is set and truthy. */
  function PreviousId(data: map<string, Value>): seq<Value> {
    if UiMessageId in data && Truthy(data[UiMessageId]) then [data[UiMessageId]] else []
  }

  /** state_data.get("page", 1): a bool counts as 0 or 1; any other kind raises in the slice arithmetic. */
  function PageOf(data: map<string, Value>): Option<int> {
    if "page" !in data then Some(1)
    else match data["page"]
      case VInt(p) => Some(p)
      case VBool(b) => Some(if b then 1 else 0)
      case _ => None
  }

  /** state_data.get("subscriber_ids", []). */
  function SubscriberIds(data: map<string, Value>): Value {
    if "subscriber_ids" in data then data["subscriber_ids"] else VList([])
  }

  /** len(v); None where len raises or the value's text is not spelled out here. */
  function ValueLen(v: Value): Option<nat> {
    match v
    case VStr(s) => Some(|s|)
    case VEnum(m) => Some(|m|)
    case VList(items) => Some(|items|)
    case VDict(entries) => Some(|entries|)
    case _ => None
  }

  /** The list entries open_broadcasts_list shows: none without a configured scheduler. */
  function ScheduledItems(jobs: Option<seq<Entry<S.Job>>>): seq<Item> {
    if jobs.Some? then SortByTime(JobItems(jobs.value)) else []
  }

  /**
   * The broadcasts_list window for the given FSM data and list entries:
   * the subscriber count in the text, the page's entries and the page
   * navigation in the keyboard; None where reading the page or the count
   * raises TypeError.
   */
  function ListScreen(data: map<string, Value>, items: seq<Item>, texts: T.Texts, keyboards: K.Keyboards): (r: Option<Screen>)
    ensures r.Some? <==> PageOf(data).Some? && ValueLen(SubscriberIds(data)).Some?
    ensures r.Some? ==> r.value.text == Keyed(texts, T.BroadcastsList, map["total" := IntToString(ValueLen(SubscriberIds(data)).value)])
    ensures r.Some? ==> r.value.keyboards == keyboards
    ensures r.Some? ==> r.value.keyboard == ListKb(PageItems(items, PageOf(data).value), PageOf(data).value, TotalPages(|items|))
  {
    var page := PageOf(data);
    var count := ValueLen(SubscriberIds(data));
    if page.None? || count.None? then None
    else
      Some(Screen(Keyed(texts, T.BroadcastsList, map["total" := IntToString(count.value)]), keyboards,
                  ListKb(PageItems(items, page.value), page.value, TotalPages(|items|))))
  }

  /**
   * The message open_broadcast_view previews: the message_data keyword
   * argument of the job under job_id, when there is a configured scheduler,
   * a truthy job_id, such a job and truthy message data. The scheduler's
   * own jobs take positional arguments only, so they preview nothing.
   */
  function JobPreview(jobs: Option<seq<Entry<S.Job>>>, jobId: Value): (r: Option<Value>)
    ensures r.Some? ==> Truthy(r.value) && jobs.Some? && jobId.VStr? && jobId.s != ""
    ensures r.Some? ==>
      && Get(jobs.value, jobId.s).Some?
      && Get(jobs.value, jobId.s).value.action.RunBroadcast?
      && Get(jobs.value, jobId.s).value.action.messageData == r.value
  {
    if jobs.None? || !Truthy(jobId) || !jobId.VStr? then None
    else match Get(jobs.value, jobId.s)
      case None => None
      case Some(job) =>
        if job.action.RunBroadcast? && Truthy(job.action.messageData) then Some(job.action.messageData) else None
  }

  /** The keyword arguments of an InlineKeyboardButton dump that this model keeps. */
  function ButtonValue(b: K.Button): Value {
    VDict(map["text" := VStr(b.text),
              "url" := if b.url.Some? then VStr(b.url.value) else VNone,
              "callback_data" := if b.callbackData.Some? then VStr(b.callbackData.value) else VNone])
  }

  function RowValues(row: seq<K.Button>): (r: seq<Value>)
    ensures |r| == |row|
  {
    if row == [] then [] else [ButtonValue(row[0])] + RowValues(row[1..])
  }

  function RowsValues(rows: K.Markup): (r: seq<Value>)
    ensures |r| == |rows|
  {
    if rows == [] then [] else [VList(RowValues(rows[0]))] + RowsValues(rows[1..])
  }

  /** reply_markup.model_dump() if a markup is given, else None. */
  function MarkupValue(markup: Option<K.Markup>): (r: Value)
    ensures r == VNone <==> markup.None?
  {
    if markup.Some? then VDict(map["inline_keyboard" := VList(RowsValues(markup.value))]) else VNone
  }

  /** message_data with its reply_markup entry set, every other entry kept. */
  function WithButtons(md: map<string, Value>, markup: Option<K.Markup>): (r: map<string, Value>)
    ensures r.Keys == md.Keys + {"reply_markup"}
    ensures r["reply_markup"] == MarkupValue(markup)
    ensures forall k :: k in md && k != "reply_markup" ==> r[k] == md[k]
  {
    md["reply_markup" := MarkupValue(markup)]
  }

  /** Setting the buttons twice keeps only the second, and skipping clears them. */
  lemma WithButtonsTwice(md: map<string, Value>, a: Option<K.Markup>, b: Option<K.Markup>)
    ensures WithButtons(WithButtons(md, a), b) == WithButtons(md, b)
    ensures WithButtons(md, None)["reply_markup"] == VNone
  {
    assert WithButtons(WithButtons(md, a), b) == WithButtons(md, b);
  }

  function IntValues(ids: seq<int>): (r: seq<Value>)
    ensures |r| == |ids|
    ensures forall i :: 0 <= i < |ids| ==> r[i] == VInt(ids[i])
  {
    if ids == [] then [] else [VInt(ids[0])] + IntValues(ids[1..])
  }

  /** The elements of the stored subscriber_ids list; a non-list value is read as no ids. */
  function IdList(v: Value): seq<Value> {
    if v.VList? then v.items else []
  }

  /** What schedule_broadcast did. */
  datatype Scheduled =
    | NotScheduled                   // None: no configured scheduler, or ids, message or time missing
    | ScheduledAs(taskId: string)    // the new job's id
    | RunDateRejected                // DateTrigger raises: the stored time is not a datetime
    | IdTaken                        // add_job raises ConflictingIdError

  // ---------------------------------------------------------------------
  // _run_broadcast
  // ---------------------------------------------------------------------

  /** How _run_broadcast ended. */
  datatype RunEnd =
    | NoStart                                          // the start notice raised past suppress(TelegramBadRequest)
    | Hung(index: nat, successful: nat, failed: nat)   // the copy to ids[index] is told to wait without end
    | Done(successful: nat, failed: nat, endRaised: bool)

  /** The number of copies that went through. */
  function CountSent(copies: seq<seq<ApiOutcome>>): (n: nat)
    ensures n <= |copies|
  {
    if copies == [] then 0
    else
      var last := |copies| - 1;
      CountSent(copies[..last]) + if SendMessageCopy(copies[last]).sent == Some(true) then 1 else 0
  }

  /** The number of copies that gave False. */
  function CountFailed(copies: seq<seq<ApiOutcome>>): nat {
    if copies == [] then 0
    else
      var last := |copies| - 1;
      CountFailed(copies[..last]) + if SendMessageCopy(copies[last]).sent == Some(false) then 1 else 0
  }

  /** The index of the first copy that never settles, |copies| if all do. */
  function FirstHung(copies: seq<seq<ApiOutcome>>): (k: nat)
    ensures k <= |copies|
    ensures forall i :: 0 <= i < k ==> SendMessageCopy(copies[i]).sent.Some?
    ensures k < |copies| ==> SendMessageCopy(copies[k]).sent.None?
  {
    if copies == [] || SendMessageCopy(copies[0]).sent.None? then 0 else 1 + FirstHung(copies[1..])
  }

  /**
   * _run_broadcast given the outcome of the start notice, the attempts of
   * each recipient's copy and the outcome of the completion notice.
   */
  function RunSpec(start: ApiOutcome, copies: seq<seq<ApiOutcome>>, end: ApiOutcome): RunEnd {
    if Suppressed(start).None? then NoStart
    else
      var k := FirstHung(copies);
      var s := CountSent(copies[..k]);
      if k < |copies| then Hung(k, s, k - s) else Done(s, k - s, Suppressed(end).None?)
  }

  lemma {:induction false} CountsSplit(copies: seq<seq<ApiOutcome>>)
    requires forall i :: 0 <= i < |copies| ==> SendMessageCopy(copies[i]).sent.Some?
    ensures CountSent(copies) + CountFailed(copies) == |copies|
  {
    if copies != [] {
      var last := |copies| - 1;
      var front := copies[..last];
      assert forall i :: 0 <= i < |front| ==> front[i] == copies[i];
      CountsSplit(front);
      var sent := SendMessageCopy(copies[last]).sent;
      assert sent.Some?;
      if sent.value {
        assert sent == Some(true);
      } else {
        assert sent == Some(false);
      }
      assert CountSent(copies) == CountSent(front) + if sent == Some(true) then 1 else 0;
      assert CountFailed(copies) == CountFailed(front) + if sent == Some(false) then 1 else 0;
    }
  }

  /**
   * A run that finishes attempted every recipient once: the successful and
   * failed counts it reports are the copies that went through and the
   * copies that gave False, and they add up to len(subscriber_ids).
   */
  lemma RunCounts(start: ApiOutcome, copies: seq<seq<ApiOutcome>>, end: ApiOutcome)
    ensures RunSpec(start, copies, end).Done? ==>
      && RunSpec(start, copies, end).successful == CountSent(copies)
      && RunSpec(start, copies, end).failed == CountFailed(copies)
      && RunSpec(start, copies, end).successful + RunSpec(start, copies, end).failed == |copies|
    ensures RunSpec(start, copies, end).Hung? ==>
      RunSpec(start, copies, end).successful + RunSpec(start, copies, end).failed == RunSpec(start, copies, end).index
  {
    if RunSpec(start, copies, end).Done? {
      assert copies[..|copies|] == copies;
      CountsSplit(copies);
    }
  }

  /** The FSM data open_menu leaves before the list is shown. */
  function MenuData(data: map<string, Value>, subscriberIds: seq<int>, returnCallback: Option<Value>): map<string, Value> {
    var d := if returnCallback.Some? then data["return_callback" := VHex(returnCallback.value)] else data;
    d + map["subscriber_ids" := VList(IntValues(subscriberIds)), "page" := VInt(1)]
  }

  /**
   * After open_menu the list is on page 1, counts the ids it was given and
   * reads back the return callback it was given; nothing else changes.
   */
  lemma MenuDataSpec(data: map<string, Value>, subscriberIds: seq<int>, returnCallback: Option<Value>, other: string)
    ensures var d := MenuData(data, subscriberIds, returnCallback);
      && PageOf(d) == Some(1)
      && ValueLen(SubscriberIds(d)) == Some(|subscriberIds|)
      && (returnCallback.Some? ==> StoredValue(d, "return_callback", VNone) == returnCallback.value)
      && (other !in {"return_callback", "subscriber_ids", "page"} && other in data ==> other in d && d[other] == data[other])
  {
  }

  // ---------------------------------------------------------------------
  // The manager
  // ---------------------------------------------------------------------

  class BroadcastUiManager {
    const userId: int
    const fsm: FsmContext
    const storage: DataStorage
    const scheduler: S.BroadcastScheduler?
    var texts: T.Texts
    var keyboards: K.Keyboards
    /** The windows sent, in order. */
    ghost var shown: seq<Screen>
    /** The ui_message_id values whose messages were deleted. */
    ghost var deleted: seq<Value>
    /** The message data copied to the user as a preview. */
    ghost var previews: seq<Value>
    /** The (subscriber_ids, message_data) pairs handed to asyncio.create_task. */
    ghost var launched: seq<(Value, Value)>
    /** The notices _run_broadcast sent to the user. */
    ghost var notices: seq<ScreenText>
    /** The recipients _run_broadcast copied the message to. */
    ghost var copied: seq<Value>
    /** How many times the return callback was awaited. */
    ghost var callbacks: nat
    /** How many of the user's own messages were deleted. */
    ghost var userDeletes: nat

    ghost predicate Valid()
      reads scheduler, if scheduler != null then {scheduler.backend} else {}
    {
      && storage.fsm == fsm
      && (scheduler != null ==> scheduler.Valid())
    }

    /** The scheduler's jobs, when there is a configured scheduler. */
    function Jobs(): Option<seq<Entry<S.Job>>>
      reads scheduler, if scheduler != null then {scheduler.backend} else {}
    {
      if scheduler != null && scheduler.backend != null then Some(scheduler.backend.jobs) else None
    }

    /**
     * __init__: the user's language code, or "en" when it is missing or
     * empty, picks the texts and keyboards unless they are given.
     */
    constructor (userId: int, languageCode: Option<string>, fsm: FsmContext, scheduler: S.BroadcastScheduler?,
                 texts: Option<T.Texts>, keyboards: Option<K.Keyboards>)
      requires scheduler != null ==> scheduler.Valid()
      ensures Valid()
      ensures this.userId == userId && this.fsm == fsm && this.scheduler == scheduler
      ensures var code := if languageCode.Some? && languageCode.value != "" then languageCode.value else "en";
        && this.texts == (if texts.Some? then texts.value else T.NewTexts(Some(code)))
        && this.keyboards == (if keyboards.Some? then keyboards.value else K.NewKeyboards(Some(code)))
      ensures shown == [] && deleted == [] && previews == [] && launched == [] && notices == [] && copied == []
      ensures callbacks == 0 && userDeletes == 0
    {
      var code := if languageCode.Some? && languageCode.value != "" then languageCode.value else "en";
      this.userId := userId;
      this.fsm := fsm;
      this.scheduler := scheduler;
      this.storage := new DataStorage(fsm);
      this.texts := if texts.Some? then texts.value else T.NewTexts(Some(code));
      this.keyboards := if keyboards.Some? then keyboards.value else K.NewKeyboards(Some(code));
      shown, deleted, previews, launched, notices, copied := [], [], [], [], [], [];
      callbacks, userDeletes := 0, 0;
    }

    /** update_language: new texts and keyboards, and the code kept in the FSM data. */
    method UpdateLanguage(code: string)
      modifies this`texts, this`keyboards, fsm
      ensures texts == T.NewTexts(Some(code)) && keyboards == K.NewKeyboards(Some(code))
      ensures fsm.data == old(fsm.data)["ui_language_code" := VStr(code)] && fsm.state == old(fsm.state)
    {
      texts := T.NewTexts(Some(code));
      keyboards := K.NewKeyboards(Some(code));
      fsm.UpdateData(map["ui_language_code" := VStr(code)]);
    }

    /** What _send_message leaves behind: the screen sent, the old window deleted, its id stored. */
    twostate predicate Sent(s: Screen, sentId: int)
      reads this, fsm
    {
      SentOver(old(fsm.data), s, sentId)
    }

    /** The same, over FSM data `d` that the method wrote before sending. */
    twostate predicate SentOver(d: map<string, Value>, s: Screen, sentId: int)
      reads this, fsm
    {
      && shown == old(shown) + [s]
      && deleted == old(deleted) + PreviousId(d)
      && fsm.data == d[UiMessageId := VInt(sentId)]
    }

    /** _delete_previous_message. */
    method DeletePreviousMessage()
      modifies this`deleted
      ensures deleted == old(deleted) + PreviousId(fsm.data)
    {
      if UiMessageId in fsm.data && Truthy(fsm.data[UiMessageId]) {
        deleted := deleted + [fsm.data[UiMessageId]];
      }
    }

    /** _send_message: send, delete the previous window, remember the new one's id. */
    method SendScreen(s: Screen, sentId: int)
      modifies this`shown, this`deleted, fsm
      ensures Sent(s, sentId) && fsm.state == old(fsm.state) && fsm.writes == old(fsm.writes) + 1
    {
      shown := shown + [s];
      DeletePreviousMessage();
      fsm.UpdateData(map[UiMessageId := VInt(sentId)]);
    }

    /** Send a window and move the FSM to its state. */
    method Open(s: Screen, st: UiState, sentId: int)
      modifies this`shown, this`deleted, fsm
      ensures Sent(s, sentId) && fsm.state == Some(st)
      ensures fsm.writes == old(fsm.writes) + 1
    {
      SendScreen(s, sentId);
      fsm.SetState(Some(st));
    }

    /**
     * open_broadcasts_list: the page of scheduled broadcasts; raised when
     * the stored page or subscriber list has a kind the arithmetic or len
     * rejects, with nothing sent.
     */
    method OpenBroadcastsList(sentId: int) returns (raised: bool)
      modifies this`shown, this`deleted, fsm
      ensures raised <==> ListScreen(old(fsm.data), old(ScheduledItems(Jobs())), texts, keyboards).None?
      ensures raised ==> unchanged(this, fsm)
      ensures !raised ==>
        && Sent(ListScreen(old(fsm.data), old(ScheduledItems(Jobs())), texts, keyboards).value, sentId)
        && fsm.state == Some(BroadcastsList)
    {
      var screen := ListScreen(fsm.data, ScheduledItems(Jobs()), texts, keyboards);
      if screen.None? {
        return true;
      }
      Open(screen.value, BroadcastsList, sentId);
      raised := false;
    }

    /** open_broadcast_view: a preview of a scheduled UI broadcast, then the view. */
    method OpenBroadcastView(sentId: int)
      modifies this`shown, this`deleted, this`previews, fsm
      ensures var jobId := if "job_id" in old(fsm.data) then old(fsm.data)["job_id"] else VNone;
        var p := JobPreview(Jobs(), jobId);
        previews == old(previews) + (if p.Some? then [p.value] else [])
      ensures Sent(Screen(Keyed(texts, T.BroadcastView, map[]), keyboards, BackDeleteKb), sentId)
      ensures fsm.state == Some(BroadcastView)
    {
      var jobId := if "job_id" in fsm.data then fsm.data["job_id"] else VNone;
      var p := JobPreview(Jobs(), jobId);
      if p.Some? {
        previews := previews + [p.value];
      }
      Open(Screen(Keyed(texts, T.BroadcastView, map[]), keyboards, BackDeleteKb), BroadcastView, sentId);
    }

    /** open_broadcast_delete. */
    method OpenBroadcastDelete(sentId: int)
      modifies this`shown, this`deleted, fsm
      ensures Sent(Screen(Keyed(texts, T.BroadcastDelete, map[]), keyboards, BackConfirmKb), sentId)
      ensures fsm.state == Some(BroadcastDelete)
    {
      Open(Screen(Keyed(texts, T.BroadcastDelete, map[]), keyboards, BackConfirmKb), BroadcastDelete, sentId);
    }

    /** open_send_message. */
    method OpenSendMessage(sentId: int)
      modifies this`shown, this`deleted, fsm
      ensures Sent(Screen(Keyed(texts, T.SendMessage, map[]), keyboards, BackKb), sentId)
      ensures fsm.state == Some(SendMessage)
    {
      Open(Screen(Keyed(texts, T.SendMessage, map[]), keyboards, BackKb), SendMessage, sentId);
    }

    /** open_send_buttons: a non-empty error text replaces the prompt. */
    method OpenSendButtons(errorText: Option<string>, sentId: int)
      modifies this`shown, this`deleted, fsm
      ensures var text := if errorText.Some? && errorText.value != "" then Given(errorText.value)
                          else Keyed(texts, T.SendButtons, map[]);
        Sent(Screen(text, keyboards, BackSkipKb), sentId)
      ensures fsm.state == Some(SendButtons)
    {
      var text := if errorText.Some? && errorText.value != "" then Given(errorText.value)
                  else Keyed(texts, T.SendButtons, map[]);
      Open(Screen(text, keyboards, BackSkipKb), SendButtons, sentId);
    }

    /** open_message_preview: a copy of the stored message when there is one, then the window. */
    method OpenMessagePreview(sentId: int)
      requires Valid()
      modifies this`shown, this`deleted, this`previews, fsm
      ensures var md := StoredValue(old(fsm.data), "message_data", VNone);
        previews == old(previews) + (if Truthy(md) then [md] else [])
      ensures Sent(Screen(Keyed(texts, T.MessagePreview, map[]), keyboards, BackNextKb), sentId)
      ensures fsm.state == Some(MessagePreview)
    {
      var md := storage.Get("message_data", VNone);
      if Truthy(md) {
        previews := previews + [md];
      }
      Open(Screen(Keyed(texts, T.MessagePreview, map[]), keyboards, BackNextKb), MessagePreview, sentId);
    }

    /** open_choose_options. */
    method OpenChooseOptions(sentId: int)
      modifies this`shown, this`deleted, fsm
      ensures Sent(Screen(Keyed(texts, T.ChooseOptions, map[]), keyboards, SendOptionsKb), sentId)
      ensures fsm.state == Some(ChooseOptions)
    {
      Open(Screen(Keyed(texts, T.ChooseOptions, map[]), keyboards, SendOptionsKb), ChooseOptions, sentId);
    }

    /** open_confirmation_now. */
    method OpenConfirmationNow(sentId: int)
      modifies this`shown, this`deleted, fsm
      ensures Sent(Screen(Keyed(texts, T.ConfirmationNow, map[]), keyboards, BackConfirmKb), sentId)
      ensures fsm.state == Some(ConfirmationNow)
    {
      Open(Screen(Keyed(texts, T.ConfirmationNow, map[]), keyboards, BackConfirmKb), ConfirmationNow, sentId);
    }

    /** open_send_datetime: the prompt shows the current time as an example; an error text replaces it. */
    method OpenSendDatetime(errorText: Option<string>, now: DateTime, sentId: int)
      modifies this`shown, this`deleted, fsm
      ensures var text := if errorText.Some? && errorText.value != "" then Given(errorText.value)
                          else Keyed(texts, T.SendDatetime, map["datetime_string" := MinuteText(now)]);
        Sent(Screen(text, keyboards, BackKb), sentId)
      ensures fsm.state == Some(SendDatetime)
    {
      var text := if errorText.Some? && errorText.value != "" then Given(errorText.value)
                  else Keyed(texts, T.SendDatetime, map["datetime_string" := MinuteText(now)]);
      Open(Screen(text, keyboards, BackKb), SendDatetime, sentId);
    }

    /** open_confirmation_later. */
    method OpenConfirmationLater(sentId: int)
      modifies this`shown, this`deleted, fsm
      ensures Sent(Screen(Keyed(texts, T.ConfirmationLater, map[]), keyboards, BackConfirmKb), sentId)
      ensures fsm.state == Some(ConfirmationLater)
    {
      Open(Screen(Keyed(texts, T.ConfirmationLater, map[]), keyboards, BackConfirmKb), ConfirmationLater, sentId);
    }

    /**
     * open_menu: the return callback (if any) and the subscriber ids are
     * stored, the list goes back to page 1 and is shown; with a list of ids
     * nothing in the list window can raise.
     */
    method OpenMenu(subscriberIds: seq<int>, returnCallback: Option<Value>, sentId: int)
      requires Valid()
      modifies this`shown, this`deleted, fsm
      ensures var d := MenuData(old(fsm.data), subscriberIds, returnCallback);
        && ListScreen(d, old(ScheduledItems(Jobs())), texts, keyboards).Some?
        && SentOver(d, ListScreen(d, old(ScheduledItems(Jobs())), texts, keyboards).value, sentId)
      ensures fsm.state == Some(BroadcastsList)
    {
      ghost var d := MenuData(fsm.data, subscriberIds, returnCallback);
      MenuDataSpec(fsm.data, subscriberIds, returnCallback, UiMessageId);
      if returnCallback.Some? {
        storage.Set("return_callback", returnCallback.value);
      }
      fsm.UpdateData(map["subscriber_ids" := VList(IntValues(subscriberIds)), "page" := VInt(1)]);
      assert fsm.data == d;
      var raised := OpenBroadcastsList(sentId);
    }

    /** return_to_caller: the stored callback is awaited when truthy, then the FSM state is cleared. */
    method ReturnToCaller()
      requires Valid()
      modifies this`callbacks, fsm
      ensures callbacks == old(callbacks) + (if Truthy(StoredValue(old(fsm.data), "return_callback", VNone)) then 1 else 0)
      ensures fsm.state == None && fsm.data == old(fsm.data)
    {
      var callback := storage.Get("return_callback", VNone);
      if Truthy(callback) {
        callbacks := callbacks + 1;
      }
      fsm.SetState(None);
    }

    /** store_message: the message's dump, kept through DataStorage. */
    method StoreMessage(dump: Value)
      requires Valid()
      modifies fsm
      ensures fsm.data == old(fsm.data)["message_data" := VHex(dump)] && fsm.state == old(fsm.state)
      ensures StoredValue(fsm.data, "message_data", VNone) == dump
    {
      storage.Set("message_data", dump);
    }

    /** store_datetime. */
    method StoreDatetime(dt: DateTime)
      requires Valid()
      modifies fsm
      ensures fsm.data == old(fsm.data)["scheduled_datetime" := VHex(VTime(dt))] && fsm.state == old(fsm.state)
      ensures StoredValue(fsm.data, "scheduled_datetime", VNone) == VTime(dt)
    {
      storage.Set("scheduled_datetime", VTime(dt));
    }

    /**
     * update_message_buttons: only when message data is stored, and then
     * only its reply_markup entry changes; message data that is not a dict
     * makes the item assignment raise TypeError.
     */
    method UpdateMessageButtons(markup: Option<K.Markup>) returns (raised: bool)
      requires Valid()
      modifies fsm
      ensures var md := StoredValue(old(fsm.data), "message_data", VNone);
        && (raised <==> Truthy(md) && !md.VDict?)
        && (Truthy(md) && md.VDict? ==>
              fsm.data == old(fsm.data)["message_data" := VHex(VDict(WithButtons(md.entries, markup)))])
        && (!Truthy(md) || !md.VDict? ==> fsm.data == old(fsm.data))
      ensures fsm.state == old(fsm.state)
    {
      var md := storage.Get("message_data", VNone);
      raised := false;
      if Truthy(md) {
        if !md.VDict? {
          return true;
        }
        storage.Set("message_data", VDict(WithButtons(md.entries, markup)));
      }
    }

    /** execute_broadcast_now: a broadcast starts only with subscriber ids and a stored message. */
    method ExecuteBroadcastNow()
      requires Valid()
      modifies this`launched
      ensures var ids := SubscriberIds(fsm.data);
        var md := StoredValue(fsm.data, "message_data", VNone);
        launched == old(launched) + (if Truthy(ids) && Truthy(md) then [(ids, md)] else [])
    {
      var ids := SubscriberIds(fsm.data);
      var md := storage.Get("message_data", VNone);
      if !Truthy(ids) || !Truthy(md) {
        return;
      }
      launched := launched + [(ids, md)];
    }

    /**
     * schedule_broadcast, with `hex` the uuid4 draw behind the task id: a
     * date job running _run_broadcast with the stored ids and message is
     * added under a new id, only with a configured scheduler and all three
     * of ids, message and time present.
     */
    method ScheduleBroadcast(hex: string) returns (r: Scheduled)
      requires Valid()
      modifies if scheduler != null then {scheduler.backend} else {}
      ensures Valid()
      ensures var ids := SubscriberIds(fsm.data);
        var md := StoredValue(fsm.data, "message_data", VNone);
        var when := StoredValue(fsm.data, "scheduled_datetime", VNone);
        && (old(Jobs()).None? || !Truthy(ids) || !Truthy(md) || !Truthy(when) <==> r == NotScheduled)
        && (r == RunDateRejected <==> r != NotScheduled && !when.VTime?)
        && (r == IdTaken <==> r != NotScheduled && when.VTime? && Get(old(Jobs()).value, S.TaskId(hex)).Some?)
        && (r.ScheduledAs? ==>
              && r.taskId == S.TaskId(hex)
              && Jobs() == Some(Put(old(Jobs()).value, r.taskId, S.Job(Some(when.when), S.RunBroadcast(ids, md)))))
        && (!r.ScheduledAs? ==> Jobs() == old(Jobs()))
    {
      if scheduler == null || !scheduler.IsConfigured() {
        return NotScheduled;
      }
      var ids := SubscriberIds(fsm.data);
      var md := storage.Get("message_data", VNone);
      var when := storage.Get("scheduled_datetime", VNone);
      if !Truthy(ids) || !Truthy(md) || !Truthy(when) {
        return NotScheduled;
      }
      if !when.VTime? {
        return RunDateRejected;
      }
      var id := S.TaskId(hex);
      var ok := scheduler.backend.AddJob(id, S.Job(Some(when.when), S.RunBroadcast(ids, md)), false);
      if !ok {
        return IdTaken;
      }
      r := ScheduledAs(id);
    }

    /**
     * delete_scheduled_broadcast as written: the job goes straight out of
     * the APScheduler instance, so a task scheduled through the
     * BroadcastScheduler keeps its pending entry.
     */
    method DeleteScheduledBroadcastAsWritten(jobId: Value) returns (ok: bool)
      requires Valid()
      modifies if scheduler != null then {scheduler.backend} else {}
      ensures Valid()
      ensures ok <==> old(Jobs()).Some? && jobId.VStr? && Get(old(Jobs()).value, jobId.s).Some?
      ensures Jobs().Some? && jobId.VStr? ==> Jobs().value == Remove(old(Jobs()).value, jobId.s)
      ensures Jobs().None? || !jobId.VStr? ==> Jobs() == old(Jobs())
      ensures scheduler != null ==> scheduler.pending == old(scheduler.pending)
    {
      if scheduler == null || !scheduler.IsConfigured() {
        return false;
      }
      if !jobId.VStr? {
        return false;
      }
      ok := scheduler.backend.RemoveJob(jobId.s);
    }

    /**
     * delete_scheduled_broadcast through BroadcastScheduler.cancel: the job
     * and, when there is one, the pending task both go.
     */
    method DeleteScheduledBroadcast(jobId: Value) returns (ok: bool)
      requires Valid()
      modifies if scheduler != null then {scheduler, scheduler.backend} else {}
      ensures Valid()
      ensures ok <==> old(Jobs()).Some? && jobId.VStr? && Get(old(Jobs()).value, jobId.s).Some?
      ensures Jobs().Some? && jobId.VStr? ==> Jobs().value == Remove(old(Jobs()).value, jobId.s)
      ensures Jobs().None? || !jobId.VStr? ==> Jobs() == old(Jobs())
      ensures scheduler != null ==>
        scheduler.pending == if ok then Remove(old(scheduler.pending), jobId.s) else old(scheduler.pending)
      ensures scheduler != null ==> scheduler.reports == old(scheduler.reports)
    {
      if scheduler == null || !scheduler.IsConfigured() {
        return false;
      }
      if !jobId.VStr? {
        return false;
      }
      var r := scheduler.Cancel(jobId.s);
      ok := r.value;
    }

    /**
     * _run_broadcast: the start notice, one send_message_copy per id in
     * order, then the completion notice with the counts. `copies[i]` are
     * the attempts of the copy to ids[i]. The service's in-progress guard
     * is neither read nor set.
     */
    method RunBroadcast(ids: seq<Value>, messageData: Value, start: ApiOutcome, copies: seq<seq<ApiOutcome>>,
                        end: ApiOutcome) returns (r: RunEnd)
      requires |copies| == |ids|
      modifies this`notices, this`copied
      ensures r == RunSpec(start, copies, end)
      ensures var attempted := match r
          case NoStart => 0
          case Hung(k, _, _) => k + 1
          case Done(_, _, _) => |ids|;
        copied == old(copied) + ids[..attempted]
      ensures notices == old(notices) + [Keyed(texts, T.BroadcastStarted, map[])] +
        if r.Done? then [Keyed(texts, T.BroadcastCompleted,
                               map["total" := IntToString(|ids|), "successful" := IntToString(r.successful),
                                   "failed" := IntToString(r.failed)])]
        else []
    {
      notices := notices + [Keyed(texts, T.BroadcastStarted, map[])];
      if Suppressed(start).None? {
        return NoStart;
      }
      var hung, i, successful, failed := CopyToAll(ids, copies);
      if hung {
        return Hung(i, successful, failed);
      }
      assert copies[..i] == copies;
      r := Done(successful, failed, Suppressed(end).None?);
      notices := notices + [Keyed(texts, T.BroadcastCompleted,
                                  map["total" := IntToString(|ids|), "successful" := IntToString(successful),
                                      "failed" := IntToString(failed)])];
    }

    /**
     * The loop of _run_broadcast: each id in order gets its copy, until one
     * copy never settles; counts the copies that went through and those
     * that gave False.
     */
    method CopyToAll(ids: seq<Value>, copies: seq<seq<ApiOutcome>>) returns (hung: bool, i: nat, successful: nat, failed: nat)
      requires |copies| == |ids|
      modifies this`copied
      ensures i == FirstHung(copies) && (hung <==> i < |ids|)
      ensures successful == CountSent(copies[..i]) && failed == i - successful
      ensures copied == old(copied) + ids[..if hung then i + 1 else i]
    {
      successful, failed := 0, 0;
      i := 0;
      while i < |ids|
        invariant 0 <= i <= |ids|
        invariant forall k :: 0 <= k < i ==> SendMessageCopy(copies[k]).sent.Some?
        invariant successful == CountSent(copies[..i]) && failed == i - successful
        invariant copied == old(copied) + ids[..i]
      {
        copied := copied + [ids[i]];
        assert ids[..i + 1] == ids[..i] + [ids[i]];
        var sent := SendMessageCopy(copies[i]).sent;
        if sent.None? {
          FirstHungAt(copies, i);
          return true, i, successful, failed;
        }
        assert copies[..i + 1][..i] == copies[..i];
        if sent.value {
          successful := successful + 1;
        } else {
          failed := failed + 1;
        }
        i := i + 1;
      }
      FirstHungAt(copies, |ids|);
      hung := false;
    }

    /** delete_user_message: the delete is attempted; a bad request is swallowed. */
    method DeleteUserMessage(outcome: ApiOutcome) returns (raised: bool)
      modifies this`userDeletes
      ensures userDeletes == old(userDeletes) + 1
      ensures raised <==> Suppressed(outcome).None?
    {
      userDeletes := userDeletes + 1;
      raised := Suppressed(outcome).None?;
    }
  }

  /** The first copy that never settles is the first one the loop meets. */
  lemma {:induction false} FirstHungAt(copies: seq<seq<ApiOutcome>>, i: nat)
    requires i <= |copies|
    requires forall k :: 0 <= k < i ==> SendMessageCopy(copies[k]).sent.Some?
    requires i < |copies| ==> SendMessageCopy(copies[i]).sent.None?
    ensures FirstHung(copies) == i
  {
    if i > 0 {
      FirstHungAt(copies[1..], i - 1);
    }
  }

  // ---------------------------------------------------------------------
  // Scheduling, viewing and deleting together
  // ---------------------------------------------------------------------

  /** A broadcast scheduled from the menu shows up in the list under its time. */
  lemma ScheduledListed(jobs: seq<Entry<S.Job>>, id: string, when: DateTime, ids: Value, md: Value)
    requires Unique(jobs)
    ensures (MinuteText(when), "job:" + id) in ScheduledItems(Some(Put(jobs, id, S.Job(Some(when), S.RunBroadcast(ids, md)))))
  {
    var job := S.Job(Some(when), S.RunBroadcast(ids, md));
    var jobs2 := Put(jobs, id, job);
    PutUnique(jobs, id, job);
    GetPut(jobs, id, job, id);
    JobItemsSpec(jobs2, id, (MinuteText(when), "job:" + id));
    SortKeeps(JobItems(jobs2), (MinuteText(when), "job:" + id));
  }

  /** Opening a broadcast scheduled from the menu previews the message it will send. */
  lemma ScheduledPreviewed(jobs: seq<Entry<S.Job>>, id: string, when: DateTime, ids: Value, md: Value)
    requires Truthy(md) && id != ""
    ensures JobPreview(Some(Put(jobs, id, S.Job(Some(when), S.RunBroadcast(ids, md)))), VStr(id)) == Some(md)
  {
    GetPut(jobs, id, S.Job(Some(when), S.RunBroadcast(ids, md)), id);
  }

  lemma SortKeeps(items: seq<Item>, x: Item)
    requires x in items
    ensures x in SortByTime(items)
  {
    assert x in multiset(items);
  }

  /**
   * The discrepancy: a task the BroadcastScheduler scheduled and the
   * menu's delete then removed has no job left to fire, yet its pending
   * entry stays, so get_task and get_pending_tasks keep reporting it.
   * Cancelling through the scheduler removes both.
   */
  lemma DeleteLeavesPendingTask(jobs: seq<Entry<S.Job>>, pending: seq<Entry<M.BroadcastTask>>, kind: S.Kind,
                                t: M.BroadcastTask)
    ensures var jobs2 := Put(jobs, t.id, S.Job(Some(t.scheduledAt), S.Execute(kind, t)));
      var pending2 := Put(pending, t.id, t);
      && Get(Remove(jobs2, t.id), t.id).None?
      && Get(pending2, t.id) == Some(t)
      && t in Values(pending2)
      && Get(Remove(pending2, t.id), t.id).None?
  {
    var jobs2 := Put(jobs, t.id, S.Job(Some(t.scheduledAt), S.Execute(kind, t)));
    var pending2 := Put(pending, t.id, t);
    GetPut(pending, t.id, t, t.id);
    ValuesListed(pending2, t.id);
    S.CancelForgets(jobs2, pending2, t.id);
  }
}
