/*
 * The broadcast library's records and errors: subscribers and their
 * membership state, the running tally of a broadcast, scheduled tasks,
 * and the dict forms they are stored under.
 */
module Errors {
  /** The library's exception hierarchy, all kinds of BroadcastError. */
  datatype BroadcastError =
    | StorageError
    | BroadcastInProgress
    | SchedulerNotConfigured

  /** A call that either returns a value or raises one of the library's errors. */
  datatype Result<T> = Returned(value: T) | Threw(error: BroadcastError)
}

module Models {
  import opened Common

  type Dict = map<string, Value>

  // ---------------------------------------------------------------------
  // Subscribers
  // ---------------------------------------------------------------------

  datatype SubscriberState = Member | Kicked {
    /** The enum's string value, which is what to_dict stores. */
    function Text(): string {
      match this
      case Member => "member"
      case Kicked => "kicked"
    }
  }

  /** SubscriberState(text): the member whose value is `text`, else ValueError. */
  function StateFromText(text: string): (r: Option<SubscriberState>)
    ensures r.Some? ==> r.value.Text() == text
    ensures r.None? ==> text != Member.Text() && text != Kicked.Text()
  {
    if text == "member" then Some(Member)
    else if text == "kicked" then Some(Kicked)
    else None
  }

  datatype Subscriber = Subscriber(
    id: int,
    fullName: string,
    username: Option<string>,
    languageCode: Option<string>,
    state: SubscriberState,
    subscribedAt: string)

  /** Subscriber(id, full_name) with every other field left to its default. */
  function NewSubscriber(id: int, fullName: string, username: Option<string>,
                         languageCode: Option<string>, now: string): Subscriber
  {
    Subscriber(id, fullName, username, languageCode, Member, now)
  }

  predicate IsActive(s: Subscriber) {
    s.state == Member
  }

  /** A freshly created subscriber is active and carries exactly the given fields. */
  lemma NewSubscriberIsActive(id: int, fullName: string, now: string)
    ensures var s := NewSubscriber(id, fullName, None, None, now);
      IsActive(s) && s.id == id && s.fullName == fullName
      && s.username == None && s.languageCode == None && s.subscribedAt == now
  {
  }

  /** is_active holds exactly for MEMBER. */
  lemma IsActiveIffMember(s: Subscriber)
    ensures IsActive(s) <==> s.state != Kicked
  {
  }

  function OptionalText(o: Option<string>): Value {
    match o
    case None => VNone
    case Some(t) => VStr(t)
  }

  const SubscriberFields: set<string> :=
    {"id", "full_name", "username", "language_code", "state", "subscribed_at"}

  /** to_dict: the dataclass fields, with the state replaced by its string value. */
  function SubscriberToDict(s: Subscriber): (d: Dict)
    ensures d.Keys == SubscriberFields
    ensures d["state"] == VStr(s.state.Text())
  {
    map["id" := VInt(s.id), "full_name" := VStr(s.fullName),
        "username" := OptionalText(s.username),
        "language_code" := OptionalText(s.languageCode),
        "state" := VStr(s.state.Text()),
        "subscribed_at" := VStr(s.subscribedAt)]
  }

  /** isinstance(v, str): plain text, or a str-valued enum member. */
  function TextOf(v: Value): Option<string> {
    match v
    case VStr(t) => Some(t)
    case VEnum(m) => Some(m)
    case _ => None
  }

  /** What from_dict's argument holds after the call, or None when it raised ValueError first. */
  function RewriteState(d: Dict): Option<Dict> {
    if "state" in d && TextOf(d["state"]).Some? then
      match StateFromText(TextOf(d["state"]).value)
      case None => None
      case Some(st) => Some(d["state" := VEnum(st.Text())])
    else Some(d)
  }

  /** An optional text field: absent or None gives None, text gives Some, anything else is refused. */
  function OptionalField(d: Dict, key: string): Option<Option<string>> {
    if key !in d then Some(None)
    else match d[key]
      case VNone => Some(None)
      case VStr(t) => Some(Some(t))
      case _ => None
  }

  /** The outcome of from_dict and what the caller's dict looks like afterwards. */
  datatype Decoded = Decoded(subscriber: Option<Subscriber>, argument: Dict)

  /**
   * Subscriber.from_dict(data). It first rewrites data["state"] in place
   * into the enum member, then builds the dataclass; missing required
   * fields, unknown fields, an unknown state and (in this typed model)
   * fields of the wrong kind make it raise, shown as subscriber None.
   * `now` supplies the default subscribed_at.
   */
  function SubscriberFromDict(d: Dict, now: string): (r: Decoded)
    ensures RewriteState(d).None? ==> r == Decoded(None, d)
    ensures r.subscriber.Some? ==> d.Keys <= SubscriberFields && "id" in d && d["id"] == VInt(r.subscriber.value.id)
  {
    match RewriteState(d)
    case None => Decoded(None, d)
    case Some(data) =>
      var username := OptionalField(data, "username");
      var language := OptionalField(data, "language_code");
      if !(data.Keys <= SubscriberFields) || "id" !in data || "full_name" !in data
         || !data["id"].VInt? || !data["full_name"].VStr?
         || username.None? || language.None?
      then Decoded(None, data)
      else
        var state :=
          if "state" !in data then Some(Member)
          else if data["state"].VEnum? then StateFromText(data["state"].member)
          else None;
        var stamp :=
          if "subscribed_at" !in data then Some(now)
          else if data["subscribed_at"].VStr? then Some(data["subscribed_at"].s)
          else None;
        if state.None? || stamp.None? then Decoded(None, data)
        else Decoded(Some(Subscriber(data["id"].i, data["full_name"].s, username.value,
                                     language.value, state.value, stamp.value)), data)
  }

  /** from_dict(to_dict(s)) == s, whatever the clock says. */
  lemma SubscriberRoundTrip(s: Subscriber, now: string)
    ensures SubscriberFromDict(SubscriberToDict(s), now).subscriber == Some(s)
  {
    var d := SubscriberToDict(s);
    assert RewriteState(d) == Some(d["state" := VEnum(s.state.Text())]);
    match s.username { case None => case Some(_) => }
    match s.languageCode { case None => case Some(_) => }
  }

  /** from_dict changes the dict it is given: the stored string becomes the enum member. */
  lemma SubscriberFromDictRewritesArgument(s: Subscriber, now: string)
    ensures var d := SubscriberToDict(s);
      SubscriberFromDict(d, now).argument == d["state" := VEnum(s.state.Text())]
      && SubscriberFromDict(d, now).argument != d
  {
    var d := SubscriberToDict(s);
    assert d["state"] != VEnum(s.state.Text());
    assert SubscriberFromDict(d, now).argument["state"] != d["state"];
  }

  /** A dict is exactly a to_dict image when decoding it and encoding back returns it. */
  ghost predicate IsSubscriberRecord(d: Dict, id: int) {
    var r := SubscriberFromDict(d, "");
    r.subscriber.Some? && r.subscriber.value.id == id && SubscriberToDict(r.subscriber.value) == d
  }

  /** Every to_dict image is such a record, and its stored clock stamp wins over any default. */
  lemma {:induction false} EncodedIsRecord(s: Subscriber, now: string)
    ensures IsSubscriberRecord(SubscriberToDict(s), s.id)
    ensures SubscriberFromDict(SubscriberToDict(s), now).subscriber
         == SubscriberFromDict(SubscriberToDict(s), "").subscriber
  {
    SubscriberRoundTrip(s, now);
    SubscriberRoundTrip(s, "");
  }

  // ---------------------------------------------------------------------
  // The tally of one broadcast
  // ---------------------------------------------------------------------

  /** The value held by a BroadcastResult at one moment. */
  datatype Tally = Tally(
    total: int,
    successful: int,
    failed: int,
    blockedUsers: seq<int>,
    errors: map<int, string>)
  {
    function WithSuccess(): Tally {
      this.(successful := successful + 1)
    }

    function WithFailure(userId: int, error: string, isBlocked: bool): Tally {
      this.(failed := failed + 1,
            errors := errors[userId := error],
            blockedUsers := if isBlocked then blockedUsers + [userId] else blockedUsers)
    }
  }

  const EmptyTally := Tally(0, 0, 0, [], map[])

  /** The last recorded error for a recipient wins. */
  lemma FailureOverwritesError(t: Tally, id: int, first: string, second: string, b1: bool, b2: bool)
    ensures var u := t.WithFailure(id, first, b1).WithFailure(id, second, b2);
      u.errors[id] == second && u.failed == t.failed + 2
      && |u.blockedUsers| == |t.blockedUsers| + (if b1 then 1 else 0) + (if b2 then 1 else 0)
  {
  }

  class BroadcastResult {
    var total: int
    var successful: int
    var failed: int
    var blockedUsers: seq<int>
    var errors: map<int, string>

    function Value(): Tally
      reads this
    {
      Tally(total, successful, failed, blockedUsers, errors)
    }

    constructor ()
      ensures Value() == EmptyTally
    {
      total, successful, failed := 0, 0, 0;
      blockedUsers, errors := [], map[];
    }

    method SetTotal(n: int)
      modifies this
      ensures Value() == old(Value()).(total := n)
    {
      total := n;
    }

    /** Counts one successful send and touches nothing else. */
    method AddSuccess()
      modifies this
      ensures Value() == old(Value()).WithSuccess()
      ensures successful == old(successful) + 1
      ensures unchanged(this`failed) && unchanged(this`errors) && unchanged(this`blockedUsers)
    {
      successful := successful + 1;
    }

    /** Counts one failure, records (or overwrites) its error and, if blocked, the id. */
    method AddFailure(userId: int, error: string, isBlocked: bool)
      modifies this
      ensures Value() == old(Value()).WithFailure(userId, error, isBlocked)
      ensures failed == old(failed) + 1 && errors[userId] == error
      ensures blockedUsers == old(blockedUsers) + (if isBlocked then [userId] else [])
    {
      failed := failed + 1;
      errors := errors[userId := error];
      if isBlocked {
        blockedUsers := blockedUsers + [userId];
      }
    }

    /** Percentage of successful sends, over the reals; 0 for an empty broadcast. */
    function SuccessRate(): (r: real)
      reads this
      ensures total == 0 ==> r == 0.0
      ensures total != 0 ==> r * (total as real) == (successful as real) * 100.0
    {
      if total == 0 then 0.0
      else
        var q := successful as real / total as real;
        assert q * (total as real) == successful as real;
        q * 100.0
    }
  }

  // ---------------------------------------------------------------------
  // Scheduled tasks
  // ---------------------------------------------------------------------

  datatype BroadcastTask = BroadcastTask(
    id: string,
    content: Value,
    contentType: string,
    scheduledAt: DateTime,
    createdAt: DateTime,
    kwargs: map<string, Value>)

  /** to_dict: both datetimes become their isoformat text, everything else is kept. */
  function TaskToDict(t: BroadcastTask): (d: Dict)
    ensures d.Keys == {"id", "content", "content_type", "scheduled_at", "created_at", "kwargs"}
    ensures d["scheduled_at"] == VIso(t.scheduledAt) && d["created_at"] == VIso(t.createdAt)
  {
    map["id" := VStr(t.id), "content" := t.content, "content_type" := VStr(t.contentType),
        "scheduled_at" := VIso(t.scheduledAt), "created_at" := VIso(t.createdAt),
        "kwargs" := VDict(t.kwargs)]
  }

  /**
   * A datetime field as from_dict reads it: isoformat text is parsed back,
   * a datetime object is kept, other text is a ValueError.
   */
  function TimeField(v: Value): Option<DateTime> {
    match v
    case VIso(at) => Some(at)
    case VTime(when) => Some(when)
    case _ => None
  }

  /**
   * BroadcastTask.from_dict(data): works on a copy of `data` (so the
   * caller's dict is untouched), parses the two datetimes, builds the
   * dataclass; `now` supplies the default created_at.
   */
  function TaskFromDict(d: Dict, now: DateTime): (r: Option<BroadcastTask>)
    ensures r.Some? ==> "id" in d && d["id"] == VStr(r.value.id)
    ensures r.Some? ==> "scheduled_at" in d && TimeField(d["scheduled_at"]) == Some(r.value.scheduledAt)
  {
    var keys := {"id", "content", "content_type", "scheduled_at", "created_at", "kwargs"};
    if !(d.Keys <= keys) || "id" !in d || "content" !in d || "content_type" !in d
       || "scheduled_at" !in d
       || !d["id"].VStr? || !d["content_type"].VStr?
       || TimeField(d["scheduled_at"]).None?
    then None
    else
      var created := if "created_at" in d then TimeField(d["created_at"]) else Some(now);
      var kwargs := if "kwargs" !in d then Some(map[])
                    else if d["kwargs"].VDict? then Some(d["kwargs"].entries) else None;
      if created.None? || kwargs.None? then None
      else Some(BroadcastTask(d["id"].s, d["content"], d["content_type"].s,
                              TimeField(d["scheduled_at"]).value, created.value, kwargs.value))
  }

  /** from_dict(to_dict(t)) == t. */
  lemma TaskRoundTrip(t: BroadcastTask, now: DateTime)
    ensures TaskFromDict(TaskToDict(t), now) == Some(t)
  {
  }
}
