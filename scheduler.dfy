/*
 * BroadcastScheduler: delayed broadcasts on top of an APScheduler
 * instance. Scheduling stores a BroadcastTask both as a date job in the
 * scheduler and in the pending-task table; firing a job runs the matching
 * BroadcastService wrapper, reports to exactly one of the two callbacks
 * and drops the pending entry whatever happened.
 *
 * The APScheduler instance is the JobStore below; the UI manager adds its
 * own jobs to the same store. Firing a job is an explicit call (Fire);
 * the scheduler's clock and event loop are not modelled.
 */
module Scheduler {
  import opened Common
  import opened Models
  import opened Errors
  import opened Storage
  import opened Entries
  import opened Service

  /** Which of the _execute_* coroutines a job runs. */
  datatype Kind = TextBroadcast | PhotoBroadcast | CopyBroadcast

  function ContentType(k: Kind): string {
    match k
    case TextBroadcast => "text"
    case PhotoBroadcast => "photo"
    case CopyBroadcast => "copy"
  }

  /** What a job does when it fires. */
  datatype Action =
    | Execute(kind: Kind, task: BroadcastTask)                  // BroadcastScheduler._execute_*
    | RunBroadcast(subscriberIds: Value, messageData: Value)    // BroadcastUIManager._run_broadcast

  /** A job: its trigger's run date (None for triggers without one) and its action. */
  datatype Job = Job(runDate: Option<DateTime>, action: Action)

  /** The APScheduler instance: its jobs by id. */
  class JobStore {
    var jobs: seq<Entry<Job>>

    ghost predicate Valid()
      reads this
    {
      Unique(jobs)
    }

    constructor ()
      ensures Valid() && jobs == []
    {
      jobs := [];
    }

    /** get_job(id). */
    function GetJob(id: string): Option<Job>
      reads this
    {
      Get(jobs, id)
    }

    /**
     * add_job(...): with replace_existing a job under the same id is
     * replaced; without it the id must be new (ConflictingIdError).
     */
    method AddJob(id: string, job: Job, replaceExisting: bool) returns (ok: bool)
      requires Valid()
      modifies this
      ensures Valid()
      ensures ok <==> replaceExisting || Get(old(jobs), id).None?
      ensures jobs == if ok then Put(old(jobs), id, job) else old(jobs)
    {
      ok := replaceExisting || Get(jobs, id).None?;
      if ok {
        PutUnique(jobs, id, job);
        jobs := Put(jobs, id, job);
      }
    }

    /** remove_job(id): false where JobLookupError is raised. */
    method RemoveJob(id: string) returns (ok: bool)
      requires Valid()
      modifies this
      ensures Valid()
      ensures ok <==> Get(old(jobs), id).Some?
      ensures jobs == Remove(old(jobs), id)
    {
      ok := Get(jobs, id).Some?;
      RemoveUnique(jobs, id);
      if !ok {
        RemoveAbsent(jobs, id);
      }
      jobs := Remove(jobs, id);
    }
  }

  // ---------------------------------------------------------------------
  // Tasks and the calls they turn into
  // ---------------------------------------------------------------------

  predicate IsHexDigit(c: char) {
    '0' <= c <= '9' || 'a' <= c <= 'f'
  }

  /** The first eight characters of uuid4().hex. */
  predicate IsHexPrefix(hex: string) {
    |hex| == 8 && forall i :: 0 <= i < |hex| ==> IsHexDigit(hex[i])
  }

  /** _generate_task_id. */
  function TaskId(hex: string): string {
    "broadcast_" + hex
  }

  /** Task ids are "broadcast_" and eight hex digits, and distinct draws give distinct ids. */
  lemma TaskIdShape(hex: string, other: string)
    requires IsHexPrefix(hex)
    ensures |TaskId(hex)| == 18 && StartsWith(TaskId(hex), "broadcast_")
    ensures forall i :: 10 <= i < 18 ==> IsHexDigit(TaskId(hex)[i])
    ensures TaskId(hex) == TaskId(other) <==> hex == other
  {
    if TaskId(hex) == TaskId(other) {
      assert hex == TaskId(hex)[10..];
      assert other == TaskId(other)[10..];
    }
  }

  /** The keyword arguments schedule_text stores: the named options, then **kwargs. */
  function TextTask(id: string, text: string, runDate: DateTime, parseMode: Option<string>,
                    replyMarkup: Value, disableNotification: bool, extra: map<string, Value>,
                    now: DateTime): BroadcastTask
  {
    BroadcastTask(id, VStr(text), "text", runDate, now,
      map["parse_mode" := OptionalText(parseMode), "reply_markup" := replyMarkup,
          "disable_notification" := VBool(disableNotification)] + extra)
  }

  function PhotoTask(id: string, photo: string, runDate: DateTime, caption: Option<string>,
                     parseMode: Option<string>, replyMarkup: Value, disableNotification: bool,
                     extra: map<string, Value>, now: DateTime): BroadcastTask
  {
    BroadcastTask(id, VStr(photo), "photo", runDate, now,
      map["caption" := OptionalText(caption), "parse_mode" := OptionalText(parseMode),
          "reply_markup" := replyMarkup, "disable_notification" := VBool(disableNotification)] + extra)
  }

  /** A copy task's content is the dict {from_chat_id, message_id}. */
  function CopyTask(id: string, fromChatId: int, messageId: int, runDate: DateTime,
                    caption: Option<string>, parseMode: Option<string>, replyMarkup: Value,
                    disableNotification: bool, extra: map<string, Value>, now: DateTime): BroadcastTask
  {
    BroadcastTask(id, VDict(map["from_chat_id" := VInt(fromChatId), "message_id" := VInt(messageId)]),
      "copy", runDate, now,
      map["caption" := OptionalText(caption), "parse_mode" := OptionalText(parseMode),
          "reply_markup" := replyMarkup, "disable_notification" := VBool(disableNotification)] + extra)
  }

  /** A call of one of the service's broadcast_* wrappers, with its keyword arguments. */
  datatype ServiceCall = ServiceCall(wrapper: string, args: map<string, Value>)

  /** Why a job's broadcast did not return a result. */
  datatype Failure =
    | Library(error: BroadcastError)  // raised by the service
    | BadArguments                    // the call itself could not be made (KeyError, TypeError)

  datatype Prepared = Ready(call: ServiceCall) | Broken(failure: Failure)

  /**
   * The call an _execute_* coroutine makes: the content under its keyword,
   * then **task.kwargs (a keyword given twice is a TypeError); a copy
   * task's content must be a dict holding both ids.
   */
  function CallFor(kind: Kind, task: BroadcastTask): Prepared {
    match kind
    case TextBroadcast =>
      if "text" in task.kwargs then Broken(BadArguments)
      else Ready(ServiceCall("broadcast_text", map["text" := task.content] + task.kwargs))
    case PhotoBroadcast =>
      if "photo" in task.kwargs then Broken(BadArguments)
      else Ready(ServiceCall("broadcast_photo", map["photo" := task.content] + task.kwargs))
    case CopyBroadcast =>
      if !task.content.VDict? || "from_chat_id" !in task.content.entries
         || "message_id" !in task.content.entries
         || "from_chat_id" in task.kwargs || "message_id" in task.kwargs
      then Broken(BadArguments)
      else Ready(ServiceCall("broadcast_copy",
        map["from_chat_id" := task.content.entries["from_chat_id"],
            "message_id" := task.content.entries["message_id"]] + task.kwargs))
  }

  /** The keyword names each schedule_* method declares; **kwargs never holds them. */
  predicate FreeOf(extra: map<string, Value>, named: set<string>) {
    forall k | k in named :: k !in extra
  }

  /**
   * Every task the schedule_* methods build goes through to its wrapper:
   * the content comes back under its keyword (a copy task's two ids under
   * theirs) and every stored keyword argument is passed on unchanged.
   */
  lemma ScheduledCallsReady(id: string, text: string, fromChatId: int, messageId: int, runDate: DateTime,
                            caption: Option<string>, parseMode: Option<string>, replyMarkup: Value,
                            disableNotification: bool, extra: map<string, Value>, now: DateTime)
    requires FreeOf(extra, {"text", "photo", "from_chat_id", "message_id"})
    ensures var t := TextTask(id, text, runDate, parseMode, replyMarkup, disableNotification, extra, now);
      CallFor(TextBroadcast, t) == Ready(ServiceCall("broadcast_text", map["text" := VStr(text)] + t.kwargs))
    ensures var t := PhotoTask(id, text, runDate, caption, parseMode, replyMarkup, disableNotification, extra, now);
      CallFor(PhotoBroadcast, t) == Ready(ServiceCall("broadcast_photo", map["photo" := VStr(text)] + t.kwargs))
    ensures var t := CopyTask(id, fromChatId, messageId, runDate, caption, parseMode, replyMarkup,
                              disableNotification, extra, now);
      CallFor(CopyBroadcast, t) == Ready(ServiceCall("broadcast_copy",
        map["from_chat_id" := VInt(fromChatId), "message_id" := VInt(messageId)] + t.kwargs))
  {
    var t := TextTask(id, text, runDate, parseMode, replyMarkup, disableNotification, extra, now);
    assert "text" !in t.kwargs;
    var p := PhotoTask(id, text, runDate, caption, parseMode, replyMarkup, disableNotification, extra, now);
    assert "photo" !in p.kwargs;
    var c := CopyTask(id, fromChatId, messageId, runDate, caption, parseMode, replyMarkup,
                      disableNotification, extra, now);
    assert "from_chat_id" !in c.kwargs && "message_id" !in c.kwargs;
  }

  /** How the sends of a job's broadcast turn out, request by request. */
  type Transport = (ServiceCall, int, nat) -> SendOutcome

  function CallSender(call: ServiceCall, transport: Transport): Sender {
    (chatId: int, attempt: nat) => transport(call, chatId, attempt)
  }

  /** only_active defaults to True. */
  predicate OnlyActive(call: ServiceCall) {
    "only_active" !in call.args || Truthy(call.args["only_active"])
  }

  /** A progress callback is used when one was passed and is truthy. */
  predicate HasProgress(call: ServiceCall) {
    "progress_callback" in call.args && Truthy(call.args["progress_callback"])
  }

  /** What the callbacks were given: on_complete a result, on_error a failure. */
  datatype Report = Completed(taskId: string, result: Tally) | Errored(taskId: string, failure: Failure)

  /** How a fired job ended. */
  datatype Fired = Finished(result: BroadcastResult) | Crashed(failure: Failure)

  /** Every pending entry sits under its own task's id. */
  predicate KeyedById(pending: seq<Entry<BroadcastTask>>) {
    forall i :: 0 <= i < |pending| ==> pending[i].value.id == pending[i].key
  }

  lemma {:induction false} KeyedGet(pending: seq<Entry<BroadcastTask>>, id: string)
    requires KeyedById(pending)
    ensures Get(pending, id).Some? ==> Get(pending, id).value.id == id
  {
    if pending != [] && pending[0].key != id {
      assert KeyedById(pending[1..]) by {
        forall i | 0 <= i < |pending[1..]| ensures pending[1..][i].value.id == pending[1..][i].key {
          assert pending[1..][i] == pending[i + 1];
        }
      }
      KeyedGet(pending[1..], id);
    }
  }

  lemma {:induction false} KeyedPut(pending: seq<Entry<BroadcastTask>>, t: BroadcastTask)
    requires KeyedById(pending)
    ensures KeyedById(Put(pending, t.id, t))
  {
    if pending != [] && pending[0].key != t.id {
      assert KeyedById(pending[1..]) by {
        forall i | 0 <= i < |pending[1..]| ensures pending[1..][i].value.id == pending[1..][i].key {
          assert pending[1..][i] == pending[i + 1];
        }
      }
      KeyedPut(pending[1..], t);
      var r := Put(pending, t.id, t);
      assert r == [pending[0]] + Put(pending[1..], t.id, t);
      forall i | 0 <= i < |r| ensures r[i].value.id == r[i].key {
        if i > 0 { assert r[i] == Put(pending[1..], t.id, t)[i - 1]; }
      }
    }
  }

  lemma {:induction false} KeyedRemove(pending: seq<Entry<BroadcastTask>>, id: string)
    requires KeyedById(pending)
    ensures KeyedById(Remove(pending, id))
  {
    if pending != [] {
      assert KeyedById(pending[1..]) by {
        forall i | 0 <= i < |pending[1..]| ensures pending[1..][i].value.id == pending[1..][i].key {
          assert pending[1..][i] == pending[i + 1];
        }
      }
      KeyedRemove(pending[1..], id);
      if pending[0].key != id {
        var r := Remove(pending, id);
        assert r == [pending[0]] + Remove(pending[1..], id);
        forall i | 0 <= i < |r| ensures r[i].value.id == r[i].key {
          if i > 0 { assert r[i] == Remove(pending[1..], id)[i - 1]; }
        }
      }
    }
  }

  class BroadcastScheduler {
    const service: BroadcastService
    const backend: JobStore?          // None: scheduling is disabled
    const hasOnComplete: bool
    const hasOnError: bool
    var pending: seq<Entry<BroadcastTask>>
    ghost var reports: seq<Report>

    ghost predicate Valid()
      reads this, backend
    {
      && (backend != null ==> backend.Valid())
      && (backend == null ==> pending == [])
      && Unique(pending)
      && KeyedById(pending)
    }

    constructor (service: BroadcastService, backend: JobStore?, hasOnComplete: bool, hasOnError: bool)
      requires backend != null ==> backend.Valid()
      ensures Valid() && pending == [] && reports == []
      ensures this.service == service && this.backend == backend
      ensures this.hasOnComplete == hasOnComplete && this.hasOnError == hasOnError
    {
      this.service := service;
      this.backend := backend;
      this.hasOnComplete := hasOnComplete;
      this.hasOnError := hasOnError;
      pending := [];
      reports := [];
    }

    /** is_configured. */
    predicate IsConfigured()
      reads this
    {
      backend != null
    }

    /** get_pending_tasks: the pending tasks in the order they were first scheduled. */
    function GetPendingTasks(): (r: seq<BroadcastTask>)
      reads this
      ensures |r| == |pending|
    {
      Values(pending)
    }

    /** get_task: the pending task with that id, if any; no backend needed. */
    function GetTask(id: string): (r: Option<BroadcastTask>)
      reads this, backend
      requires Valid()
      ensures r.Some? ==> r.value.id == id && r.value in GetPendingTasks()
      ensures r.None? <==> id !in Keys(pending)
    {
      KeyedGet(pending, id);
      KeysListed(pending, id);
      ValuesListed(pending, id);
      Get(pending, id)
    }

    /**
     * The common tail of the schedule_* methods: a date job under the task's
     * id (replacing any job with that id), then the pending entry.
     */
    method Enqueue(kind: Kind, task: BroadcastTask)
      requires Valid() && backend != null
      modifies this`pending, backend
      ensures Valid()
      ensures backend.jobs == Put(old(backend.jobs), task.id, Job(Some(task.scheduledAt), Execute(kind, task)))
      ensures pending == Put(old(pending), task.id, task)
    {
      var added := backend.AddJob(task.id, Job(Some(task.scheduledAt), Execute(kind, task)), true);
      PutUnique(pending, task.id, task);
      KeyedPut(pending, task);
      pending := Put(pending, task.id, task);
    }

    /**
     * schedule_text: SchedulerNotConfiguredError before anything changes;
     * otherwise the id "broadcast_<hex>" under which both the job and the
     * pending task are stored.
     */
    method ScheduleText(text: string, runDate: DateTime, parseMode: Option<string>, replyMarkup: Value,
                        disableNotification: bool, extra: map<string, Value>, hex: string, now: DateTime)
      returns (r: Result<string>)
      requires Valid() && IsHexPrefix(hex)
      requires FreeOf(extra, {"text", "run_date", "parse_mode", "reply_markup", "disable_notification"})
      modifies this`pending, backend
      ensures Valid()
      ensures backend == null ==> r == Threw(SchedulerNotConfigured) && pending == old(pending)
      ensures backend != null ==>
        var task := TextTask(TaskId(hex), text, runDate, parseMode, replyMarkup, disableNotification, extra, now);
        && r == Returned(task.id)
        && backend.jobs == Put(old(backend.jobs), task.id, Job(Some(runDate), Execute(TextBroadcast, task)))
        && pending == Put(old(pending), task.id, task)
    {
      if backend == null {
        return Threw(SchedulerNotConfigured);
      }
      var id := TaskId(hex);
      var task := TextTask(id, text, runDate, parseMode, replyMarkup, disableNotification, extra, now);
      Enqueue(TextBroadcast, task);
      r := Returned(id);
    }

    /** schedule_photo: as schedule_text, with a photo and a caption. */
    method SchedulePhoto(photo: string, runDate: DateTime, caption: Option<string>, parseMode: Option<string>,
                         replyMarkup: Value, disableNotification: bool, extra: map<string, Value>,
                         hex: string, now: DateTime)
      returns (r: Result<string>)
      requires Valid() && IsHexPrefix(hex)
      requires FreeOf(extra, {"photo", "run_date", "caption", "parse_mode", "reply_markup", "disable_notification"})
      modifies this`pending, backend
      ensures Valid()
      ensures backend == null ==> r == Threw(SchedulerNotConfigured) && pending == old(pending)
      ensures backend != null ==>
        var task := PhotoTask(TaskId(hex), photo, runDate, caption, parseMode, replyMarkup,
                              disableNotification, extra, now);
        && r == Returned(task.id)
        && backend.jobs == Put(old(backend.jobs), task.id, Job(Some(runDate), Execute(PhotoBroadcast, task)))
        && pending == Put(old(pending), task.id, task)
    {
      if backend == null {
        return Threw(SchedulerNotConfigured);
      }
      var id := TaskId(hex);
      var task := PhotoTask(id, photo, runDate, caption, parseMode, replyMarkup, disableNotification, extra, now);
      Enqueue(PhotoBroadcast, task);
      r := Returned(id);
    }

    /** schedule_copy: the task's content records the source chat and message. */
    method ScheduleCopy(fromChatId: int, messageId: int, runDate: DateTime, caption: Option<string>,
                        parseMode: Option<string>, replyMarkup: Value, disableNotification: bool,
                        extra: map<string, Value>, hex: string, now: DateTime)
      returns (r: Result<string>)
      requires Valid() && IsHexPrefix(hex)
      requires FreeOf(extra, {"from_chat_id", "message_id", "run_date", "caption", "parse_mode",
                              "reply_markup", "disable_notification"})
      modifies this`pending, backend
      ensures Valid()
      ensures backend == null ==> r == Threw(SchedulerNotConfigured) && pending == old(pending)
      ensures backend != null ==>
        var task := CopyTask(TaskId(hex), fromChatId, messageId, runDate, caption, parseMode, replyMarkup,
                             disableNotification, extra, now);
        && r == Returned(task.id)
        && backend.jobs == Put(old(backend.jobs), task.id, Job(Some(runDate), Execute(CopyBroadcast, task)))
        && pending == Put(old(pending), task.id, task)
    {
      if backend == null {
        return Threw(SchedulerNotConfigured);
      }
      var id := TaskId(hex);
      var task := CopyTask(id, fromChatId, messageId, runDate, caption, parseMode, replyMarkup,
                           disableNotification, extra, now);
      Enqueue(CopyBroadcast, task);
      r := Returned(id);
    }

    /**
     * cancel: SchedulerNotConfiguredError without a backend; False, with
     * nothing changed, when the backend has no such job; otherwise the job
     * and the pending entry are gone and the answer is True.
     */
    method Cancel(id: string) returns (r: Result<bool>)
      requires Valid()
      modifies this`pending, backend
      ensures Valid()
      ensures backend == null ==> r == Threw(SchedulerNotConfigured) && pending == old(pending)
      ensures backend != null ==>
        && r == Returned(Get(old(backend.jobs), id).Some?)
        && backend.jobs == Remove(old(backend.jobs), id)
        && pending == if r.value then Remove(old(pending), id) else old(pending)
    {
      if backend == null {
        return Threw(SchedulerNotConfigured);
      }
      var removed := backend.RemoveJob(id);
      if !removed {
        return Returned(false);
      }
      RemoveUnique(pending, id);
      KeyedRemove(pending, id);
      pending := Remove(pending, id);
      r := Returned(true);
    }

    /** _handle_completion: on_complete gets the result; its own exceptions are swallowed. */
    method HandleCompletion(taskId: string, result: BroadcastResult)
      modifies this`reports
      ensures reports == old(reports) + if hasOnComplete then [Completed(taskId, result.Value())] else []
    {
      if hasOnComplete {
        reports := reports + [Completed(taskId, result.Value())];
      }
    }

    /** _handle_error: on_error gets the failure; its own exceptions are swallowed. */
    method HandleError(taskId: string, failure: Failure)
      modifies this`reports
      ensures reports == old(reports) + if hasOnError then [Errored(taskId, failure)] else []
    {
      if hasOnError {
        reports := reports + [Errored(taskId, failure)];
      }
    }

    /**
     * The backend fires the job `id` (a date job is dropped once it runs)
     * and the matching _execute_* coroutine runs: the wrapper call, then
     * exactly one of the completion and error paths, then, in `finally`,
     * the pending entry is popped whether the broadcast returned or raised.
     */
    method Fire(id: string, transport: Transport) returns (outcome: Fired, ghost ids: seq<int>)
      requires Valid() && backend != null && service.storage.Valid()
      requires Get(backend.jobs, id).Some? && Get(backend.jobs, id).value.action.Execute?
      modifies this`pending, this`reports, backend, service, service.storage
      ensures Valid() && service.storage.Valid()
      ensures backend.jobs == Remove(old(backend.jobs), id)
      ensures var task := old(Get(backend.jobs, id)).value.action.task;
        && pending == Remove(old(pending), task.id)
        && (outcome.Finished? ==>
              && fresh(outcome.result)
              && reports == old(reports) + (if hasOnComplete then [Completed(task.id, outcome.result.Value())] else []))
        && (outcome.Crashed? ==>
              reports == old(reports) + (if hasOnError then [Errored(task.id, outcome.failure)] else []))
      ensures var a := old(Get(backend.jobs, id)).value.action;
        var prepared := CallFor(a.kind, a.task);
        && (prepared.Broken? ==> outcome == Crashed(BadArguments) && unchanged(service))
        && (outcome.Finished? ==>
              && prepared.Ready?
              && NoDuplicates(ids)
              && (set x | x in ids) == old(service.storage.Selected(Filter(OnlyActive(prepared.call))))
              && var sender := CallSender(prepared.call, transport);
                 outcome.result.Value() == RunOver(service.rateLimit, HasProgress(prepared.call), ids,
                   AttemptsFor(sender, service.maxRetries, service.retryDelay, ids), |ids|).tally)
    {
      var job := backend.GetJob(id).value;
      var task := job.action.task;
      var removed := backend.RemoveJob(id);
      var prepared := CallFor(job.action.kind, task);
      if prepared.Broken? {
        HandleError(task.id, prepared.failure);
        outcome, ids := Crashed(prepared.failure), [];
      } else {
        var call := prepared.call;
        var r;
        r, ids := service.Broadcast(CallSender(call, transport), OnlyActive(call), HasProgress(call));
        if r.Done? {
          HandleCompletion(task.id, r.result);
          outcome := Finished(r.result);
        } else {
          HandleError(task.id, Library(r.error));
          outcome := Crashed(Library(r.error));
        }
      }
      RemoveUnique(pending, task.id);
      KeyedRemove(pending, task.id);
      pending := Remove(pending, task.id);
    }
  }

  /** After a successful cancel the id is unknown to both tables, so a second cancel answers False. */
  lemma CancelForgets(jobs: seq<Entry<Job>>, pending: seq<Entry<BroadcastTask>>, id: string)
    ensures Get(Remove(jobs, id), id).None? && Get(Remove(pending, id), id).None?
    ensures forall q :: q != id ==> Get(Remove(pending, id), q) == Get(pending, q)
  {
    GetRemove(jobs, id, id);
    GetRemove(pending, id, id);
    forall q | q != id ensures Get(Remove(pending, id), q) == Get(pending, q) {
      GetRemove(pending, id, q);
    }
  }

  /**
   * Scheduling makes the task retrievable under the returned id, and
   * scheduling again under a used id replaces the earlier task and job.
   */
  lemma ScheduleThenGet(jobs: seq<Entry<Job>>, pending: seq<Entry<BroadcastTask>>, kind: Kind, t: BroadcastTask,
                        u: BroadcastTask, kind2: Kind)
    requires u.id == t.id
    ensures var j := Job(Some(t.scheduledAt), Execute(kind, t));
      Get(Put(pending, t.id, t), t.id) == Some(t) && Get(Put(jobs, t.id, j), t.id) == Some(j)
    ensures var j := Job(Some(u.scheduledAt), Execute(kind2, u));
      var jobs2 := Put(Put(jobs, t.id, Job(Some(t.scheduledAt), Execute(kind, t))), u.id, j);
      Get(Put(Put(pending, t.id, t), u.id, u), t.id) == Some(u) && Get(jobs2, t.id) == Some(j)
  {
    var j := Job(Some(t.scheduledAt), Execute(kind, t));
    GetPut(pending, t.id, t, t.id);
    GetPut(jobs, t.id, j, t.id);
    GetPut(Put(pending, t.id, t), u.id, u, t.id);
    GetPut(Put(jobs, t.id, j), u.id, Job(Some(u.scheduledAt), Execute(kind2, u)), t.id);
  }
}
