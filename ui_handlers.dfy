/*
 * BroadcastUIHandlers: one callback-query handler and one message handler
 * per menu state. A callback handler branches on the pressed button's
 * callback data, calls the manager, and ends with call.answer(); a message
 * handler consumes what the user sent and ends by deleting the user's
 * message. register_on_router binds each pair to its state, for private
 * chats only.
 *
 * The branch each handler takes is a pure transition table (OnPress,
 * OnPost); HandleCallback and HandleMessage run a branch against the
 * manager and are proved to land in the state the table names.
 */
module UiHandlers {
  import opened Common
  import opened Entries
  import opened UiUtils
  import U = UiManager
  import K = UiKeyboards
  import T = UiTexts
  import S = Scheduler

  // ---------------------------------------------------------------------
  // Callback data
  // ---------------------------------------------------------------------

  /** A text with a colon splits into at least two parts. */
  lemma SplitHasTwo(s: string, c: char)
    requires c in s
    ensures |Split(s, c)| >= 2
  {
    var i := IndexOf(s, c);
    assert s[..|s|] == s;
    assert i < |s|;
  }

  /** data.split(":")[1]: the text after the first colon, up to the next one. */
  function FieldAfterColon(d: string): string
    requires ':' in d
  {
    SplitHasTwo(d, ':');
    Split(d, ':')[1]
  }

  /** A text that starts with a colon-terminated prefix holds a colon. */
  lemma PrefixColon(d: string, prefix: string)
    requires prefix != [] && prefix[|prefix| - 1] == ':' && StartsWith(d, prefix)
    ensures ':' in d
  {
    assert d[|prefix| - 1] == d[..|prefix|][|prefix| - 1];
  }

  /** What a button press in a state leads to. */
  datatype Press =
    | Ignore                        // data the state's handler does not know: only the answer
    | Leave                         // return_to_caller, then the menu window is deleted
    | Show(target: UiState)         // the window of `target` opens
    | GoToPage(page: Option<int>)   // "page:N": N stored, the list shown again; None where int() raises
    | ViewJob(jobId: string)        // "job:ID": ID stored, the broadcast's view opens
    | ConfirmDelete                 // the stored job, if any, is deleted; the list opens
    | SkipButtons                   // the message loses its buttons; the preview opens
    | StartNow                      // the broadcast starts; the list opens
    | ScheduleLater                 // the broadcast is scheduled; the list opens

  /** The branch the callback handler registered for `st` takes on callback data `data`. */
  function OnPress(st: UiState, data: Option<string>): Press {
    var d := if data.Some? then data.value else "";
    match st
    case BroadcastsList =>
      if d == "back" then Leave
      else if d == "add" then Show(SendMessage)
      else if StartsWith(d, "page:") then
        PrefixColon(d, "page:");
        GoToPage(ParseInt(FieldAfterColon(d)))
      else if StartsWith(d, "job:") then
        PrefixColon(d, "job:");
        ViewJob(FieldAfterColon(d))
      else Ignore
    case BroadcastView =>
      if d == "back" then Show(BroadcastsList) else if d == "delete" then Show(BroadcastDelete) else Ignore
    case BroadcastDelete =>
      if d == "back" then Show(BroadcastView) else if d == "confirm" then ConfirmDelete else Ignore
    case SendMessage =>
      if d == "back" then Show(BroadcastsList) else Ignore
    case SendButtons =>
      if d == "back" then Show(SendMessage) else if d == "skip" then SkipButtons else Ignore
    case MessagePreview =>
      if d == "back" then Show(SendButtons) else if d == "next" then Show(ChooseOptions) else Ignore
    case ChooseOptions =>
      if d == "back" then Show(MessagePreview)
      else if d == "now" then Show(ConfirmationNow)
      else if d == "later" then Show(SendDatetime)
      else Ignore
    case ConfirmationNow =>
      if d == "back" then Show(ChooseOptions) else if d == "confirm" then StartNow else Ignore
    case SendDatetime =>
      if d == "back" then Show(ChooseOptions) else Ignore
    case ConfirmationLater =>
      if d == "back" then Show(SendDatetime) else if d == "confirm" then ScheduleLater else Ignore
  }

  /** The FSM state once the branch has run to the answer; None once the menu is left. */
  function AfterPress(st: UiState, p: Press): Option<UiState> {
    match p
    case Ignore => Some(st)
    case Leave => None
    case Show(target) => Some(target)
    case GoToPage(_) => Some(BroadcastsList)
    case ViewJob(_) => Some(BroadcastView)
    case ConfirmDelete => Some(BroadcastsList)
    case SkipButtons => Some(MessagePreview)
    case StartNow => Some(BroadcastsList)
    case ScheduleLater => Some(BroadcastsList)
  }

  /** The branches in which something can raise before call.answer(). */
  predicate MayRaise(p: Press) {
    p.GoToPage? || p == Show(BroadcastsList) || p == ConfirmDelete || p == SkipButtons
    || p == StartNow || p == ScheduleLater
  }

  // ---------------------------------------------------------------------
  // Messages
  // ---------------------------------------------------------------------

  /** What a message sent in a state leads to. */
  datatype Post =
    | Discard                       // only the user's message is deleted
    | TakeMessage                   // the message is stored; the buttons prompt opens
    | ButtonsParsed(markup: K.Markup)
    | ButtonsRejected
    | TimeParsed(when: DateTime)
    | TimeRejected

  /**
   * What the message handlers read from a message: build_url_buttons and
   * validate_datetime of its text, both None for a message without text.
   * Both are pure, so reading both in every state changes nothing.
   */
  datatype Reading = Reading(buttons: Option<K.Markup>, time: Option<DateTime>)

  function Read(text: Option<string>): Reading {
    var t := if text.Some? then text.value else "";
    if t == "" then Reading(None, None) else Reading(K.UrlButtons(t), ValidateDatetime(t))
  }

  /** The branch the message handler registered for `st` takes on a message read as `r`. */
  function OnPost(st: UiState, r: Reading): Post {
    match st
    case SendMessage => TakeMessage
    case SendButtons => if r.buttons.Some? then ButtonsParsed(r.buttons.value) else ButtonsRejected
    case SendDatetime => if r.time.Some? then TimeParsed(r.time.value) else TimeRejected
    case _ => Discard
  }

  /** The FSM state once the branch has run to the deletion of the user's message. */
  function AfterPost(st: UiState, p: Post): UiState {
    match p
    case Discard => st
    case TakeMessage => SendButtons
    case ButtonsParsed(_) => MessagePreview
    case ButtonsRejected => SendButtons
    case TimeParsed(_) => ConfirmationLater
    case TimeRejected => SendDatetime
  }

  /** The branches in which something can raise before the user's message is deleted. */
  predicate PostMayRaise(p: Post) {
    p.ButtonsParsed? || p == TimeRejected
  }

  // ---------------------------------------------------------------------
  // Walks through the menu
  // ---------------------------------------------------------------------

  /** One update the menu's router hands to a handler. */
  datatype Event = Tap(data: Option<string>) | Say(reading: Reading)

  /** The state after the handler for `st` has run on `e` without raising. */
  function Next(st: UiState, e: Event): Option<UiState> {
    match e
    case Tap(d) => AfterPress(st, OnPress(st, d))
    case Say(r) => Some(AfterPost(st, OnPost(st, r)))
  }

  /** A sequence of updates; outside the menu's states no handler matches. */
  function Walk(st: Option<UiState>, es: seq<Event>): Option<UiState>
    decreases |es|
  {
    if es == [] || st.None? then st else Walk(Next(st.value, es[0]), es[1..])
  }

  /**
   * "back" undoes every forward step: whenever an update moves the menu on
   * to another window other than the list, pressing "back" there returns
   * to the window it came from.
   */
  lemma BackUndoes(st: UiState, e: Event)
    requires e != Tap(Some("back"))
    requires Next(st, e).Some? && Next(st, e).value != st && Next(st, e).value != BroadcastsList
    ensures Next(Next(st, e).value, Tap(Some("back"))) == Some(st)
  {
    var t := Next(st, e).value;
    BackToParent(t);
    match e
    case Tap(d) =>
      ForwardPress(st, d);
    case Say(r) =>
      ForwardPost(st, r);
  }

  /** The window "back" returns to, from every window but the list. */
  function Parent(st: UiState): UiState
    requires st != BroadcastsList
  {
    match st
    case BroadcastView => BroadcastsList
    case BroadcastDelete => BroadcastView
    case SendMessage => BroadcastsList
    case SendButtons => SendMessage
    case MessagePreview => SendButtons
    case ChooseOptions => MessagePreview
    case ConfirmationNow => ChooseOptions
    case SendDatetime => ChooseOptions
    case ConfirmationLater => SendDatetime
  }

  /** "back" leaves the menu from the list and opens the parent window everywhere else. */
  lemma BackToParent(st: UiState)
    ensures st == BroadcastsList ==> OnPress(st, Some("back")) == Leave
    ensures st != BroadcastsList ==> OnPress(st, Some("back")) == Show(Parent(st))
  {
  }

  /** A press other than "back" that opens another window than the list opens a child of the current one. */
  lemma ForwardPress(st: UiState, d: Option<string>)
    requires d != Some("back")
    requires AfterPress(st, OnPress(st, d)).Some?
    requires AfterPress(st, OnPress(st, d)).value != st && AfterPress(st, OnPress(st, d)).value != BroadcastsList
    ensures Parent(AfterPress(st, OnPress(st, d)).value) == st
  {
    var p := OnPress(st, d);
    match st
    case BroadcastsList =>
      assert p == Show(SendMessage) || p.ViewJob?;
    case BroadcastView =>
      assert p == Show(BroadcastDelete);
    case BroadcastDelete =>
      assert false;
    case SendMessage =>
      assert false;
    case SendButtons =>
      assert p == SkipButtons;
    case MessagePreview =>
      assert p == Show(ChooseOptions);
    case ChooseOptions =>
      assert p == Show(ConfirmationNow) || p == Show(SendDatetime);
    case ConfirmationNow =>
      assert false;
    case SendDatetime =>
      assert false;
    case ConfirmationLater =>
      assert false;
  }

  /** A message that moves the menu on lands in a child of the current window. */
  lemma ForwardPost(st: UiState, r: Reading)
    requires AfterPost(st, OnPost(st, r)) != st && AfterPost(st, OnPost(st, r)) != BroadcastsList
    ensures Parent(AfterPost(st, OnPost(st, r))) == st
  {
    var p := OnPost(st, r);
    match st
    case SendMessage =>
      assert p == TakeMessage;
    case SendButtons =>
      assert p.ButtonsParsed?;
    case SendDatetime =>
      assert p.TimeParsed?;
    case _ =>
      assert false;
  }

  /** Every window but the list has a "back" button that stays inside the menu. */
  lemma BackStaysInMenu(st: UiState)
    ensures Next(st, Tap(Some("back"))).None? <==> st == BroadcastsList
  {
  }

  /**
   * The way to a scheduled broadcast: "add", any message, "skip", "next",
   * "later", a text that reads as a time, then "confirm" back to the list.
   */
  lemma ScheduleWalk(message: Reading, time: Reading)
    requires time.time.Some?
    ensures Walk(Some(BroadcastsList), [Tap(Some("add")), Say(message), Tap(Some("skip")), Tap(Some("next")),
                                        Tap(Some("later")), Say(time)]) == Some(ConfirmationLater)
    ensures Next(ConfirmationLater, Tap(Some("confirm"))) == Some(BroadcastsList)
  {
    var es := [Tap(Some("add")), Say(message), Tap(Some("skip")), Tap(Some("next")), Tap(Some("later")), Say(time)];
    ComposeSteps(message);
    LaterSteps();
    WalkCons(SendDatetime, es[5..]);
    WalkCons(ChooseOptions, es[4..]);
    WalkCons(MessagePreview, es[3..]);
    WalkCons(SendButtons, es[2..]);
    WalkCons(SendMessage, es[1..]);
    WalkCons(BroadcastsList, es);
  }

  /** One step of a walk. */
  lemma WalkCons(st: UiState, es: seq<Event>)
    requires es != []
    ensures Walk(Some(st), es) == Walk(Next(st, es[0]), es[1..])
  {
  }

  /** From the list to the choice of when to send. */
  lemma ComposeSteps(message: Reading)
    ensures Next(BroadcastsList, Tap(Some("add"))) == Some(SendMessage)
    ensures Next(SendMessage, Say(message)) == Some(SendButtons)
    ensures Next(SendButtons, Tap(Some("skip"))) == Some(MessagePreview)
    ensures Next(MessagePreview, Tap(Some("next"))) == Some(ChooseOptions)
  {
  }

  /** From the choice of when to send to the time prompt, and from the confirmation to the list. */
  lemma LaterSteps()
    ensures Next(ChooseOptions, Tap(Some("later"))) == Some(SendDatetime)
    ensures Next(ConfirmationLater, Tap(Some("confirm"))) == Some(BroadcastsList)
  {
  }

  // ---------------------------------------------------------------------
  // The buttons each window carries are the ones its handler knows
  // ---------------------------------------------------------------------

  /** The keyboard the manager sends with the window of each state but the list. */
  function WindowKeyboard(st: UiState): U.Keyboard
    requires st != BroadcastsList
  {
    match st
    case BroadcastView => U.BackDeleteKb
    case BroadcastDelete => U.BackConfirmKb
    case SendMessage => U.BackKb
    case SendButtons => U.BackSkipKb
    case MessagePreview => U.BackNextKb
    case ChooseOptions => U.SendOptionsKb
    case ConfirmationNow => U.BackConfirmKb
    case SendDatetime => U.BackKb
    case ConfirmationLater => U.BackConfirmKb
  }

  /** No button of a window is ignored by the handler of the window's state. */
  lemma WindowButtonsHandled(st: UiState, k: K.Keyboards, text: U.ScreenText, i: nat, j: nat)
    requires st != BroadcastsList
    requires var m := U.Markup(U.Screen(text, k, WindowKeyboard(st))); i < |m| && j < |m[i]|
    ensures var b := U.Markup(U.Screen(text, k, WindowKeyboard(st)))[i][j];
      b.callbackData.Some? && OnPress(st, b.callbackData) != Ignore
  {
    var m: K.Markup := U.Markup(U.Screen(text, k, WindowKeyboard(st)));
    var data := m[i][j].callbackData;
    match st
    case BroadcastView => assert data == Some("back") || data == Some("delete");
    case BroadcastDelete => assert data == Some("back") || data == Some("confirm");
    case SendMessage => assert data == Some("back");
    case SendButtons => assert data == Some("back") || data == Some("skip");
    case MessagePreview => assert data == Some("back") || data == Some("next");
    case ChooseOptions => assert data == Some("back") || data == Some("now") || data == Some("later");
    case ConfirmationNow => assert data == Some("back") || data == Some("confirm");
    case SendDatetime => assert data == Some("back");
    case ConfirmationLater => assert data == Some("back") || data == Some("confirm");
  }

  /** A navigation button "page:n" brings the list to page n. */
  lemma PageButtonHandled(n: int)
    ensures OnPress(BroadcastsList, Some(K.PageData(n))) == GoToPage(Some(n))
  {
    var s := IntToString(n);
    var d := K.PageData(n);
    ColonFree(n);
    FieldAfterPrefix("page", s);
    assert d == "page" + [':'] + s;
    assert StartsWith(d, "page:");
    IntToStringParses(n);
  }

  /** A list entry "job:<id>" opens that job's view when the id holds no colon. */
  lemma JobButtonHandled(id: string)
    requires ':' !in id
    ensures OnPress(BroadcastsList, Some("job:" + id)) == ViewJob(id)
  {
    var d := "job:" + id;
    FieldAfterPrefix("job", id);
    assert d == "job" + [':'] + id;
    assert StartsWith(d, "job:");
    assert !StartsWith(d, "page:") by {
      assert d[0] == 'j';
    }
  }

  /** str(n) holds no colon. */
  lemma ColonFree(n: int)
    ensures ':' !in IntToString(n)
  {
    var s := IntToString(n);
    var digits := if n < 0 then NatToString(-n) else NatToString(n);
    assert IsDigits(digits);
    assert s == (if n < 0 then "-" else "") + digits;
    assert forall i :: 0 <= i < |s| ==> s[i] != ':' by {
      forall i | 0 <= i < |s| ensures s[i] != ':' {
        if n < 0 && i > 0 {
          assert s[i] == digits[i - 1];
        } else if n >= 0 {
          assert s[i] == digits[i];
        }
      }
    }
  }

  /** A character that does not occur is found at the end. */
  lemma {:induction false} IndexOfAbsent(s: string, c: char)
    requires c !in s
    ensures IndexOf(s, c) == |s|
  {
    if |s| > 0 {
      assert s[0] != c;
      assert c !in s[1..] by {
        forall x | x in s[1..] ensures x != c {
          var k :| 0 <= k < |s[1..]| && s[1..][k] == x;
          assert s[k + 1] == x;
        }
      }
      IndexOfAbsent(s[1..], c);
    }
  }

  /** Splitting "<head>:<rest>" with a colon-free head and rest gives [head, rest]. */
  lemma FieldAfterPrefix(head: string, rest: string)
    requires ':' !in head && ':' !in rest
    ensures ':' in head + [':'] + rest
    ensures FieldAfterColon(head + [':'] + rest) == rest
  {
    var d := head + [':'] + rest;
    assert d[|head|] == ':';
    assert d[..|head|] == head;
    var i := IndexOf(d, ':');
    assert i == |head|;
    assert d[..i] == head;
    assert d[i + 1..] == rest;
    IndexOfAbsent(rest, ':');
    assert rest[..|rest|] == rest;
    assert Split(rest, ':') == [rest];
    assert Split(d, ':') == [head, rest];
  }

  // ---------------------------------------------------------------------
  // The handlers
  // ---------------------------------------------------------------------

  /** state_data.get("job_id"): the job the view and the delete confirmation are about. */
  function StoredJobId(data: map<string, Value>): Value {
    if "job_id" in data then data["job_id"] else VNone
  }

  /** The scheduler's jobs once the delete confirmation has run on the stored job id. */
  function AfterDelete(jobs: Option<seq<Entry<S.Job>>>, jobId: Value): Option<seq<Entry<S.Job>>> {
    if Truthy(jobId) && jobId.VStr? && jobs.Some? then Some(Remove(jobs.value, jobId.s)) else jobs
  }

  /** The job a confirmed "later" adds: run _run_broadcast at the stored time with the stored ids and message. */
  function ScheduledJob(data: map<string, Value>): S.Job
    requires StoredValue(data, "scheduled_datetime", VNone).VTime?
  {
    S.Job(Some(StoredValue(data, "scheduled_datetime", VNone).when),
          S.RunBroadcast(U.SubscriberIds(data), StoredValue(data, "message_data", VNone)))
  }

  /**
   * The window a "back", "add", "delete", "next", "now" or "later" press
   * opens, with the opener's default arguments. Only the list can raise.
   */
  method ShowWindow(ui: U.BroadcastUiManager, target: UiState, sentId: int, now: DateTime) returns (raised: bool)
    requires ui.Valid()
    modifies ui`shown, ui`deleted, ui`previews, ui.fsm
    ensures !raised ==> ui.fsm.state == Some(target) && |ui.shown| == |old(ui.shown)| + 1
    ensures raised ==> target == BroadcastsList && unchanged(ui.fsm) && ui.shown == old(ui.shown)
  {
    raised := false;
    match target
    case BroadcastsList => raised := ui.OpenBroadcastsList(sentId);
    case BroadcastView => ui.OpenBroadcastView(sentId);
    case BroadcastDelete => ui.OpenBroadcastDelete(sentId);
    case SendMessage => ui.OpenSendMessage(sentId);
    case SendButtons => ui.OpenSendButtons(None, sentId);
    case MessagePreview => ui.OpenMessagePreview(sentId);
    case ChooseOptions => ui.OpenChooseOptions(sentId);
    case ConfirmationNow => ui.OpenConfirmationNow(sentId);
    case SendDatetime => ui.OpenSendDatetime(None, now, sentId);
    case ConfirmationLater => ui.OpenConfirmationLater(sentId);
  }

  /** "back" in the list: the caller's callback runs, the state is cleared, the menu window is deleted. */
  method PressLeave(ui: U.BroadcastUiManager)
    requires ui.Valid()
    modifies ui`deleted, ui`callbacks, ui.fsm
    ensures ui.fsm.state == None && ui.fsm.data == old(ui.fsm.data)
    ensures ui.callbacks == old(ui.callbacks) + (if Truthy(StoredValue(old(ui.fsm.data), "return_callback", VNone)) then 1 else 0)
    ensures ui.deleted == old(ui.deleted) + U.PreviousId(old(ui.fsm.data))
  {
    ui.ReturnToCaller();
    ui.DeletePreviousMessage();
  }

  /** "job:ID": the id is stored and the broadcast's view opens. */
  method PressViewJob(ui: U.BroadcastUiManager, jobId: string, sentId: int)
    modifies ui`shown, ui`deleted, ui`previews, ui.fsm
    ensures "job_id" in ui.fsm.data && ui.fsm.data["job_id"] == VStr(jobId)
    ensures ui.fsm.state == Some(BroadcastView)
  {
    ui.fsm.UpdateData(map["job_id" := VStr(jobId)]);
    ui.OpenBroadcastView(sentId);
  }

  /** "page:N": the page is stored and the list shown again; open_broadcasts_list may raise. */
  method PressPage(ui: U.BroadcastUiManager, page: int, sentId: int) returns (answered: bool)
    requires ui.Valid()
    modifies ui`shown, ui`deleted, ui.fsm
    ensures "page" in ui.fsm.data && ui.fsm.data["page"] == VInt(page)
    ensures answered <==> U.ListScreen(old(ui.fsm.data)["page" := VInt(page)], old(U.ScheduledItems(ui.Jobs())),
                                       ui.texts, ui.keyboards).Some?
    ensures answered ==> ui.fsm.state == Some(BroadcastsList)
  {
    ui.fsm.UpdateData(map["page" := VInt(page)]);
    var raised := ui.OpenBroadcastsList(sentId);
    answered := !raised;
  }

  /** "confirm" in the delete confirmation: the stored job, when there is one, is cancelled through the scheduler, so its pending task goes too; then the list. */
  method PressConfirmDelete(ui: U.BroadcastUiManager, sentId: int) returns (answered: bool)
    requires ui.Valid()
    modifies ui`shown, ui`deleted, ui.fsm
    modifies if ui.scheduler != null then {ui.scheduler, ui.scheduler.backend} else {}
    ensures ui.Valid()
    ensures ui.Jobs() == AfterDelete(old(ui.Jobs()), StoredJobId(old(ui.fsm.data)))
    ensures ui.scheduler != null ==>
      var j := StoredJobId(old(ui.fsm.data));
      ui.scheduler.pending ==
        if Truthy(j) && old(ui.Jobs()).Some? && j.VStr? && Get(old(ui.Jobs()).value, j.s).Some?
        then Remove(old(ui.scheduler.pending), j.s) else old(ui.scheduler.pending)
    ensures answered ==> ui.fsm.state == Some(BroadcastsList)
  {
    var jobId := StoredJobId(ui.fsm.data);
    if Truthy(jobId) {
      var ok := ui.DeleteScheduledBroadcast(jobId);
    }
    var raised := ui.OpenBroadcastsList(sentId);
    answered := !raised;
  }

  /** "confirm" in the confirmation of an immediate broadcast: it starts, then the list. */
  method PressStartNow(ui: U.BroadcastUiManager, sentId: int) returns (answered: bool)
    requires ui.Valid()
    modifies ui`shown, ui`deleted, ui`launched, ui.fsm
    ensures var ids := U.SubscriberIds(old(ui.fsm.data));
      var md := StoredValue(old(ui.fsm.data), "message_data", VNone);
      ui.launched == old(ui.launched) + (if Truthy(ids) && Truthy(md) then [(ids, md)] else [])
    ensures answered ==> ui.fsm.state == Some(BroadcastsList)
  {
    ui.ExecuteBroadcastNow();
    var raised := ui.OpenBroadcastsList(sentId);
    answered := !raised;
  }

  /**
   * "confirm" in the confirmation of a scheduled broadcast: the job is
   * added, then the list; a rejected run date or a taken id raises.
   */
  method PressSchedule(ui: U.BroadcastUiManager, hex: string, sentId: int) returns (answered: bool)
    requires ui.Valid()
    modifies ui`shown, ui`deleted, ui.fsm
    modifies if ui.scheduler != null then {ui.scheduler.backend} else {}
    ensures ui.Valid()
    ensures || ui.Jobs() == old(ui.Jobs())
            || (&& old(ui.Jobs()).Some?
                && StoredValue(old(ui.fsm.data), "scheduled_datetime", VNone).VTime?
                && ui.Jobs() == Some(Put(old(ui.Jobs()).value, S.TaskId(hex), ScheduledJob(old(ui.fsm.data)))))
    ensures answered ==> ui.fsm.state == Some(BroadcastsList)
  {
    var r := ui.ScheduleBroadcast(hex);
    if r == U.RunDateRejected || r == U.IdTaken {
      return false;
    }
    var raised := ui.OpenBroadcastsList(sentId);
    answered := !raised;
  }

  /** "skip": the stored message loses its buttons, then the preview; a non-dict message raises. */
  method PressSkip(ui: U.BroadcastUiManager, sentId: int) returns (answered: bool)
    requires ui.Valid()
    modifies ui`shown, ui`deleted, ui`previews, ui.fsm
    ensures answered ==> ui.fsm.state == Some(MessagePreview)
    ensures var md := StoredValue(old(ui.fsm.data), "message_data", VNone);
      answered <==> !Truthy(md) || md.VDict?
  {
    var raised := ui.UpdateMessageButtons(None);
    if raised {
      return false;
    }
    ui.OpenMessagePreview(sentId);
    answered := true;
  }

  /**
   * One branch of a callback handler, run against the manager, up to the
   * point where the query is answered. `sentId` is the id of the window
   * the branch sends, `now` the clock, `hex` the uuid4 draw behind a new
   * task id. answered is false when the branch raised. What the list,
   * delete, schedule and skip branches do is stated on PressPage,
   * PressConfirmDelete, PressStartNow, PressSchedule and PressSkip.
   */
  method RunPress(ui: U.BroadcastUiManager, st: UiState, p: Press, sentId: int, now: DateTime, hex: string)
    returns (answered: bool)
    requires ui.Valid() && ui.fsm.state == Some(st)
    modifies ui`shown, ui`deleted, ui`previews, ui`launched, ui`callbacks, ui.fsm
    modifies if ui.scheduler != null then {ui.scheduler, ui.scheduler.backend} else {}
    ensures ui.Valid()
    ensures answered ==> ui.fsm.state == AfterPress(st, p)
    ensures !MayRaise(p) ==> answered
    ensures p == Ignore ==> unchanged(ui.fsm) && ui.shown == old(ui.shown)
    ensures p == GoToPage(None) ==> !answered && unchanged(ui.fsm) && ui.shown == old(ui.shown)
    ensures p.ViewJob? ==> "job_id" in ui.fsm.data && ui.fsm.data["job_id"] == VStr(p.jobId)
    ensures p == Leave ==>
      && ui.callbacks == old(ui.callbacks) + (if Truthy(StoredValue(old(ui.fsm.data), "return_callback", VNone)) then 1 else 0)
      && ui.deleted == old(ui.deleted) + U.PreviousId(old(ui.fsm.data))
    ensures p != ConfirmDelete && p != ScheduleLater ==> ui.Jobs() == old(ui.Jobs())
  {
    answered := true;
    match p
    case Ignore =>
    case Leave =>
      PressLeave(ui);
    case Show(target) =>
      var raised := ShowWindow(ui, target, sentId, now);
      answered := !raised;
    case GoToPage(page) =>
      if page.None? {
        return false;
      }
      answered := PressPage(ui, page.value, sentId);
    case ViewJob(jobId) =>
      PressViewJob(ui, jobId, sentId);
    case ConfirmDelete =>
      answered := PressConfirmDelete(ui, sentId);
    case SkipButtons =>
      answered := PressSkip(ui, sentId);
    case StartNow =>
      answered := PressStartNow(ui, sentId);
    case ScheduleLater =>
      answered := PressSchedule(ui, hex, sentId);
  }

  /**
   * The callback handler registered for `st`, on callback data `data`: the
   * branch OnPress names, run by RunPress, then call.answer(); the query
   * is left unanswered (answered is false) when the branch raised.
   */
  method HandleCallback(ui: U.BroadcastUiManager, st: UiState, data: Option<string>, sentId: int, now: DateTime,
                        hex: string) returns (answered: bool)
    requires ui.Valid() && ui.fsm.state == Some(st)
    modifies ui`shown, ui`deleted, ui`previews, ui`launched, ui`callbacks, ui.fsm
    modifies if ui.scheduler != null then {ui.scheduler, ui.scheduler.backend} else {}
    ensures ui.Valid()
    ensures answered ==> ui.fsm.state == AfterPress(st, OnPress(st, data))
    ensures !MayRaise(OnPress(st, data)) ==> answered
    ensures OnPress(st, data) == Ignore ==> unchanged(ui.fsm) && ui.shown == old(ui.shown)
    ensures OnPress(st, data) == GoToPage(None) ==> !answered && unchanged(ui.fsm) && ui.shown == old(ui.shown)
  {
    answered := RunPress(ui, st, OnPress(st, data), sentId, now, hex);
  }

  /** A message in the send_message state: it is stored, and the buttons prompt opens. */
  method PostMessage(ui: U.BroadcastUiManager, dump: Value, sentId: int)
    requires ui.Valid()
    modifies ui`shown, ui`deleted, ui.fsm
    ensures StoredValue(ui.fsm.data, "message_data", VNone) == dump
    ensures ui.fsm.state == Some(SendButtons)
  {
    ui.StoreMessage(dump);
    ui.OpenSendButtons(None, sentId);
  }

  /** Parsed buttons: they go into the stored message, then the preview; a non-dict message raises. */
  method PostButtons(ui: U.BroadcastUiManager, markup: K.Markup, sentId: int) returns (raised: bool)
    requires ui.Valid()
    modifies ui`shown, ui`deleted, ui`previews, ui.fsm
    ensures var md := StoredValue(old(ui.fsm.data), "message_data", VNone);
      && (raised <==> Truthy(md) && !md.VDict?)
      && (Truthy(md) && md.VDict? ==>
            StoredValue(ui.fsm.data, "message_data", VNone) == VDict(U.WithButtons(md.entries, Some(markup))))
    ensures !raised ==> ui.fsm.state == Some(MessagePreview)
  {
    raised := ui.UpdateMessageButtons(Some(markup));
    if raised {
      return;
    }
    ui.OpenMessagePreview(sentId);
  }

  /** A valid time: it is stored, and the confirmation opens. */
  method PostTime(ui: U.BroadcastUiManager, when: DateTime, sentId: int)
    requires ui.Valid()
    modifies ui`shown, ui`deleted, ui.fsm
    ensures StoredValue(ui.fsm.data, "scheduled_datetime", VNone) == VTime(when)
    ensures ui.fsm.state == Some(ConfirmationLater)
  {
    ui.StoreDatetime(when);
    ui.OpenConfirmationLater(sentId);
  }

  /**
   * One branch of a message handler, run against the manager, up to the
   * deletion of the user's message. `dump` is what store_message keeps of
   * the message, `now` the clock. raised is true when the branch raised:
   * the stored message is not a dict, or the error template is malformed.
   */
  method RunPost(ui: U.BroadcastUiManager, st: UiState, p: Post, dump: Value, now: DateTime, sentId: int)
    returns (raised: bool)
    requires ui.Valid() && ui.fsm.state == Some(st)
    modifies ui`shown, ui`deleted, ui`previews, ui.fsm
    ensures !raised ==> ui.fsm.state == Some(AfterPost(st, p))
    ensures !PostMayRaise(p) ==> !raised
    ensures p == Discard ==> unchanged(ui.fsm) && ui.shown == old(ui.shown)
    ensures p == TakeMessage ==> StoredValue(ui.fsm.data, "message_data", VNone) == dump
    ensures p.TimeParsed? ==> StoredValue(ui.fsm.data, "scheduled_datetime", VNone) == VTime(p.when)
  {
    raised := false;
    match p
    case Discard =>
    case TakeMessage =>
      PostMessage(ui, dump, sentId);
    case ButtonsParsed(markup) =>
      raised := PostButtons(ui, markup, sentId);
    case ButtonsRejected =>
      var errorText := T.Get(ui.texts, T.KeyName(T.SendButtonsError), map[]);
      ui.OpenSendButtons(errorText, sentId);
    case TimeParsed(when) =>
      PostTime(ui, when, sentId);
    case TimeRejected =>
      var errorText := T.Get(ui.texts, T.KeyName(T.SendDatetimeError), map["datetime_string" := MinuteText(now)]);
      if errorText.None? {
        return true;
      }
      ui.OpenSendDatetime(errorText, now, sentId);
  }

  /**
   * The message handler registered for `st`: the branch OnPost names for
   * the message's text, run by RunPost, then delete_user_message, whose
   * outcome is `deletion`. The user's message is deleted exactly when the
   * branch did not raise.
   */
  method HandleMessage(ui: U.BroadcastUiManager, st: UiState, text: Option<string>, dump: Value, now: DateTime,
                       sentId: int, deletion: ApiOutcome) returns (raised: bool)
    requires ui.Valid() && ui.fsm.state == Some(st)
    modifies ui`shown, ui`deleted, ui`previews, ui`userDeletes, ui.fsm
    ensures var p := OnPost(st, Read(text));
      && (ui.userDeletes == old(ui.userDeletes) + 1 ==> ui.fsm.state == Some(AfterPost(st, p)))
      && (!PostMayRaise(p) ==> ui.userDeletes == old(ui.userDeletes) + 1)
    ensures || (ui.userDeletes == old(ui.userDeletes) + 1 && (raised <==> Suppressed(deletion).None?))
            || (ui.userDeletes == old(ui.userDeletes) && raised)
    ensures OnPost(st, Read(text)) == Discard ==> ui.fsm.state == old(ui.fsm.state) && ui.fsm.data == old(ui.fsm.data)
  {
    raised := RunPost(ui, st, OnPost(st, Read(text)), dump, now, sentId);
    if raised {
      return;
    }
    raised := ui.DeleteUserMessage(deletion);
  }

  // ---------------------------------------------------------------------
  // register_on_router
  // ---------------------------------------------------------------------

  /** The menu's states in the order register_on_router registers them. */
  const MenuStates: seq<UiState> := [BroadcastsList, BroadcastView, BroadcastDelete, SendMessage, SendButtons,
                                     MessagePreview, ChooseOptions, ConfirmationNow, SendDatetime, ConfirmationLater]

  /**
   * A router's two observers: the states of the callback-query handlers
   * and of the message handlers, in registration order, and whether the
   * private-chat filter is set on each.
   */
  class Router {
    var callbackHandlers: seq<UiState>
    var messageHandlers: seq<UiState>
    var callbackPrivateOnly: bool
    var messagePrivateOnly: bool

    constructor ()
      ensures callbackHandlers == [] && messageHandlers == []
      ensures !callbackPrivateOnly && !messagePrivateOnly
    {
      callbackHandlers, messageHandlers := [], [];
      callbackPrivateOnly, messagePrivateOnly := false, false;
    }
  }

  /** register_on_router: the private-chat filters, then one callback and one message handler per state. */
  method RegisterOnRouter(router: Router)
    modifies router
    ensures router.callbackPrivateOnly && router.messagePrivateOnly
    ensures router.callbackHandlers == old(router.callbackHandlers) + MenuStates
    ensures router.messageHandlers == old(router.messageHandlers) + MenuStates
  {
    router.callbackPrivateOnly := true;
    router.messagePrivateOnly := true;
    var i := 0;
    while i < |MenuStates|
      invariant 0 <= i <= |MenuStates|
      invariant router.callbackHandlers == old(router.callbackHandlers) + MenuStates[..i]
      invariant router.messageHandlers == old(router.messageHandlers) + MenuStates[..i]
      invariant router.callbackPrivateOnly && router.messagePrivateOnly
    {
      router.callbackHandlers := router.callbackHandlers + [MenuStates[i]];
      router.messageHandlers := router.messageHandlers + [MenuStates[i]];
      i := i + 1;
    }
  }

  /** The position of the first handler registered for `st`, or |handlers| when there is none. */
  function FirstFor(handlers: seq<UiState>, st: UiState): (i: nat)
    ensures i <= |handlers|
    ensures forall k :: 0 <= k < i ==> handlers[k] != st
    ensures i < |handlers| ==> handlers[i] == st
  {
    if handlers == [] then 0
    else if handlers[0] == st then 0
    else 1 + FirstFor(handlers[1..], st)
  }

  /**
   * The handler an update reaches: none outside a private chat when the
   * filter is set, none when the user has no menu state, otherwise the
   * first one registered for the state.
   */
  function Route(handlers: seq<UiState>, privateOnly: bool, isPrivate: bool, state: Option<UiState>): Option<nat> {
    if privateOnly && !isPrivate then None
    else if state.None? then None
    else
      var i := FirstFor(handlers, state.value);
      if i < |handlers| then Some(i) else None
  }

  /** Each state appears once among the menu's states. */
  lemma MenuStatesOnce(st: UiState, k: nat)
    requires k < |MenuStates| && MenuStates[k] == st
    ensures k == FirstFor(MenuStates, st)
  {
    var m := MenuStates;
    assert m[0].BroadcastsList? && m[1].BroadcastView? && m[2].BroadcastDelete? && m[3].SendMessage?
        && m[4].SendButtons? && m[5].MessagePreview? && m[6].ChooseOptions? && m[7].ConfirmationNow?
        && m[8].SendDatetime? && m[9].ConfirmationLater?;
    FirstForAt(m, k);
  }

  /** In a list whose k-th entry does not occur before k, the first handler for it is the k-th. */
  lemma {:induction false} FirstForAt(handlers: seq<UiState>, k: nat)
    requires k < |handlers| && forall j :: 0 <= j < k ==> handlers[j] != handlers[k]
    ensures FirstFor(handlers, handlers[k]) == k
  {
    if k > 0 {
      assert handlers[0] != handlers[k];
      assert handlers[1..][k - 1] == handlers[k];
      FirstForAt(handlers[1..], k - 1);
    }
  }

  /**
   * On a router holding only the menu's handlers, every private update of
   * a user in a menu state reaches the one handler registered for that
   * state; updates from other chats and users outside the menu reach none.
   */
  lemma RoutedToOwnHandler(isPrivate: bool, state: Option<UiState>)
    ensures var r := Route(MenuStates, true, isPrivate, state);
      && (r.Some? <==> isPrivate && state.Some?)
      && (r.Some? ==> MenuStates[r.value] == state.value
                      && forall k :: 0 <= k < |MenuStates| && MenuStates[k] == state.value ==> k == r.value)
  {
    if isPrivate && state.Some? {
      var i := FirstFor(MenuStates, state.value);
      assert state.value in MenuStates;
      assert i < |MenuStates|;
      forall k | 0 <= k < |MenuStates| && MenuStates[k] == state.value ensures k == i {
        MenuStatesOnce(state.value, k);
      }
    }
  }
}
