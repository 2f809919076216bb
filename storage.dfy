/*
 * The subscriber registry: RedisBroadcastStorage together with the two
 * operations its base class derives from the primitive ones
 * (get_or_create_subscriber, update_subscriber_state).
 *
 * The Redis hash "{prefix}:subscribers" maps each subscriber id to the
 * to_dict form of the subscriber. The JSON text round-trips that dict and
 * to_dict is determined by the subscriber, so the model keeps the
 * subscriber itself under its id (`records`) and reads go through
 * SubscriberToDict and SubscriberFromDict, as json.loads + from_dict do.
 * str(id) is injective, so int keys stand for the hash's field names.
 * Every Redis command may fail; `fault(n)` says whether the n-th command
 * issued against this store raises, and `calls` counts the commands issued.
 */
module Storage {
  import opened Common
  import opened Models

  /** The answer of one storage operation: a value, or the exception the Redis client raised. */
  datatype Reply<T> = Ok(value: T) | Failed

  predicate NoDuplicates(ids: seq<int>) {
    forall i, j :: 0 <= i < j < |ids| ==> ids[i] != ids[j]
  }

  /** A list without repetitions has as many elements as its set. */
  lemma {:induction false} DistinctCount(ids: seq<int>)
    requires NoDuplicates(ids)
    ensures |set x | x in ids| == |ids|
  {
    if ids != [] {
      var rest := ids[1..];
      DistinctCount(rest);
      assert (set x | x in ids) == (set x | x in rest) + {ids[0]};
      forall j | 0 <= j < |rest| ensures rest[j] != ids[0] {
        assert rest[j] == ids[j + 1];
      }
    }
  }

  /** The state filter of get_all_subscriber_ids / iter_subscribers: None matches everyone. */
  predicate Matches(s: Subscriber, state: Option<SubscriberState>) {
    state.None? || s.state == state.value
  }

  /** The registry after update_subscriber_state(id, state): only that record's state moves. */
  function WithState(m: map<int, Subscriber>, id: int, state: SubscriberState): (r: map<int, Subscriber>)
    ensures r.Keys == m.Keys
    ensures forall k | k in m && k != id :: r[k] == m[k]
    ensures id in m ==> r[id] == m[id].(state := state)
  {
    if id in m then m[id := m[id].(state := state)] else m
  }

  /** Setting the same state twice stores the same record as setting it once. */
  lemma WithStateIdempotent(m: map<int, Subscriber>, id: int, state: SubscriberState)
    ensures WithState(WithState(m, id, state), id, state) == WithState(m, id, state)
  {
  }

  /** The list without the value `x`, order otherwise kept. */
  function Without(ids: seq<int>, x: int): (r: seq<int>)
    ensures forall y :: y in r <==> y in ids && y != x
    ensures NoDuplicates(ids) ==> NoDuplicates(r)
  {
    if ids == [] then []
    else if ids[0] == x then Without(ids[1..], x)
    else
      var rest := Without(ids[1..], x);
      assert NoDuplicates(ids) ==> ids[0] !in ids[1..] by {
        if NoDuplicates(ids) {
          forall j | 0 <= j < |ids| - 1 ensures ids[1..][j] != ids[0] {
            assert ids[1..][j] == ids[j + 1];
          }
        }
      }
      [ids[0]] + rest
  }

  /** The ids a state filter selects from a registry. */
  ghost function SelectedIn(subs: map<int, Subscriber>, state: Option<SubscriberState>): set<int> {
    set id | id in subs && Matches(subs[id], state)
  }

  class RedisStorage {
    const keyPrefix: string
    const subscribersKey: string
    const fault: nat -> bool
    var calls: nat
    var records: map<int, Subscriber>   // id -> the subscriber whose to_dict form the hash stores
    var order: seq<int>                  // the hash's fields in the order HKEYS and HSCAN report them

    /** Each stored record sits under its own subscriber's id; the field order lists each id once. */
    ghost predicate Valid()
      reads this
    {
      subscribersKey == keyPrefix + ":subscribers"
      && (forall id | id in records :: records[id].id == id)
      && NoDuplicates(order)
      && (forall id :: id in order <==> id in records)
    }

    /** The subscribers the hash holds. */
    ghost function Subscribers(): map<int, Subscriber>
      reads this
    {
      records
    }

    /** The ids a state filter selects. */
    ghost function Selected(state: Option<SubscriberState>): set<int>
      reads this
    {
      SelectedIn(records, state)
    }

    constructor (keyPrefix: string, fault: nat -> bool)
      ensures Valid() && this.keyPrefix == keyPrefix && this.fault == fault
      ensures subscribersKey == keyPrefix + ":subscribers"
      ensures records == map[] && calls == 0
    {
      this.keyPrefix := keyPrefix;
      this.subscribersKey := keyPrefix + ":subscribers";
      this.fault := fault;
      calls := 0;
      records := map[];
      order := [];
    }

    /** Issues one Redis command; false when it raised. */
    method Command() returns (ok: bool)
      modifies this`calls
      ensures calls == old(calls) + 1
      ensures ok == !fault(old(calls))
    {
      ok := !fault(calls);
      calls := calls + 1;
    }

    /** The unfiltered selection is every stored id. */
    lemma SubscriberIds()
      requires Valid()
      ensures Selected(None) == records.Keys
    {
      forall id | id in records ensures id in Selected(None) {
      }
    }

    /** The field order lists exactly the hash's ids. */
    lemma OrderIsKeys()
      requires Valid()
      ensures (set x | x in order) == records.Keys
    {
      forall x ensures x in (set y | y in order) <==> x in records {
      }
    }

    /** HSET of the encoded record: inserts or overwrites the entry for s.id. */
    method AddSubscriber(s: Subscriber) returns (r: Reply<()>)
      requires Valid()
      modifies this
      ensures Valid() && calls == old(calls) + 1
      ensures r.Ok? <==> !fault(old(calls))
      ensures Subscribers() == if r.Ok? then old(Subscribers())[s.id := s] else old(Subscribers())
    {
      var ok := Command();
      if !ok {
        return Failed;
      }
      if s.id !in records {
        order := order + [s.id];
      }
      records := records[s.id := s];
      r := Ok(());
    }

    /** The same write as add_subscriber, so it also inserts absent ids. */
    method UpdateSubscriber(s: Subscriber) returns (r: Reply<()>)
      requires Valid()
      modifies this
      ensures Valid() && calls == old(calls) + 1
      ensures r.Ok? <==> !fault(old(calls))
      ensures Subscribers() == if r.Ok? then old(Subscribers())[s.id := s] else old(Subscribers())
    {
      r := AddSubscriber(s);
    }

    /** HGET and decode: None for an absent id, otherwise the last record stored. */
    method GetSubscriber(id: int) returns (r: Reply<Option<Subscriber>>)
      requires Valid()
      modifies this`calls
      ensures Valid() && calls == old(calls) + 1
      ensures r.Ok? <==> !fault(old(calls))
      ensures r.Ok? ==> r.value == if id in Subscribers() then Some(Subscribers()[id]) else None
    {
      var ok := Command();
      if !ok {
        return Failed;
      }
      if id !in records {
        return Ok(None);
      }
      SubscriberRoundTrip(records[id], "");
      r := Ok(SubscriberFromDict(SubscriberToDict(records[id]), "").subscriber);
    }

    /** HDEL: true iff the entry existed; afterwards the id is absent. */
    method DeleteSubscriber(id: int) returns (r: Reply<bool>)
      requires Valid()
      modifies this
      ensures Valid() && calls == old(calls) + 1
      ensures r.Ok? <==> !fault(old(calls))
      ensures r.Ok? ==> r.value == (id in old(Subscribers()))
      ensures Subscribers() == if r.Ok? then old(Subscribers()) - {id} else old(Subscribers())
    {
      var ok := Command();
      if !ok {
        return Failed;
      }
      var existed := id in records;
      records := records - {id};
      order := Without(order, id);
      r := Ok(existed);
    }

    /**
     * iter_subscribers: one pass over the hash (the HSCAN batches and their
     * cursor are not modelled), yielding every stored subscriber that the
     * filter selects, each once, in an order Redis chooses.
     */
    method IterSubscribers(state: Option<SubscriberState>, batchSize: int) returns (r: Reply<seq<Subscriber>>)
      requires Valid()
      modifies this`calls
      ensures Valid()
      ensures calls == old(calls) + 1
      ensures r.Ok? <==> !fault(old(calls))
      ensures r.Ok? ==> forall s | s in r.value :: s.id in Subscribers() && Subscribers()[s.id] == s && Matches(s, state)
      ensures r.Ok? ==> forall id | id in Selected(state) :: exists s | s in r.value :: s.id == id
      ensures r.Ok? ==> NoDuplicates(Ids(r.value))
    {
      var ok := Command();
      if !ok {
        return Failed;
      }
      var out: seq<Subscriber> := [];
      var i := 0;
      label scanned:
      while i < |order|
        invariant unchanged@scanned(this)
        invariant 0 <= i <= |order|
        invariant forall s | s in out :: s.id in order[..i] && Subscribers()[s.id] == s && Matches(s, state)
        invariant forall id | id in Selected(state) && id in order[..i] :: exists s | s in out :: s.id == id
        invariant NoDuplicates(Ids(out))
      {
        var key := order[i];
        SubscriberRoundTrip(records[key], "");
        var s := SubscriberFromDict(SubscriberToDict(records[key]), "").subscriber.value;
        forall t | t in out ensures t.id != s.id {
          NotEarlier(order, i, t.id);
        }
        if Matches(s, state) {
          IdsAppend(out, s);
          out := out + [s];
        }
        assert order[..i + 1] == order[..i] + [key];
        i := i + 1;
      }
      assert order[..i] == order;
      r := Ok(out);
    }

    /** get_all_subscriber_ids: every stored id (HKEYS) or, with a state, the ids of that state. */
    method GetAllSubscriberIds(state: Option<SubscriberState>) returns (r: Reply<seq<int>>)
      requires Valid()
      modifies this`calls
      ensures Valid() && calls == old(calls) + 1
      ensures r.Ok? <==> !fault(old(calls))
      ensures r.Ok? ==> NoDuplicates(r.value) && (set x | x in r.value) == Selected(state)
      ensures r.Ok? ==> |r.value| == |Selected(state)|
    {
      if state.None? {
        var ok := Command();
        if !ok {
          return Failed;
        }
        var ids := order;
        OrderIsKeys();
        SubscriberIds();
        DistinctCount(ids);
        return Ok(ids);
      }
      var subs := IterSubscribers(state, 100);
      if subs.Failed? {
        return Failed;
      }
      var ids := Ids(subs.value);
      forall id | id in Selected(state) ensures id in ids {
        var s :| s in subs.value && s.id == id;
        IdsContains(subs.value, s);
      }
      forall x | x in ids ensures x in Selected(state) {
        var k :| 0 <= k < |subs.value| && subs.value[k].id == x;
        assert subs.value[k] in subs.value;
      }
      DistinctCount(ids);
      r := Ok(ids);
    }

    /** get_subscribers_count: HLEN, or a counting pass over the filtered iteration. */
    method GetSubscribersCount(state: Option<SubscriberState>) returns (r: Reply<int>)
      requires Valid()
      modifies this`calls
      ensures Valid() && calls == old(calls) + 1
      ensures r.Ok? <==> !fault(old(calls))
      ensures r.Ok? ==> r.value == |Selected(state)|
    {
      if state.None? {
        var ok := Command();
        if !ok {
          return Failed;
        }
        SubscriberIds();
        return Ok(|records|);
      }
      var subs := IterSubscribers(state, 100);
      if subs.Failed? {
        return Failed;
      }
      var count := 0;
      var i := 0;
      label counted:
      while i < |subs.value|
        invariant unchanged@counted(this)
        invariant 0 <= i <= |subs.value|
        invariant count == i
      {
        count := count + 1;
        i := i + 1;
      }
      var ids := Ids(subs.value);
      forall id | id in Selected(state) ensures id in ids {
        var s :| s in subs.value && s.id == id;
        IdsContains(subs.value, s);
      }
      forall x | x in ids ensures x in Selected(state) {
        var k :| 0 <= k < |subs.value| && subs.value[k].id == x;
        assert subs.value[k] in subs.value;
      }
      DistinctCount(ids);
      assert (set x | x in ids) == Selected(state);
      r := Ok(count);
    }

    /** get_active_subscriber_ids is get_all_subscriber_ids(MEMBER). */
    method GetActiveSubscriberIds() returns (r: Reply<seq<int>>)
      requires Valid()
      modifies this`calls
      ensures Valid() && calls == old(calls) + 1
      ensures r.Ok? <==> !fault(old(calls))
      ensures r.Ok? ==> NoDuplicates(r.value) && (set x | x in r.value) == Selected(Some(Member))
    {
      r := GetAllSubscriberIds(Some(Member));
    }

    /**
     * get_or_create_subscriber: an existing record is returned untouched
     * (created = false, nothing written); otherwise a new MEMBER record with
     * the given fields is added and returned with created = true.
     */
    method GetOrCreateSubscriber(id: int, fullName: string, username: Option<string>,
                                 languageCode: Option<string>, now: string)
      returns (r: Reply<(Subscriber, bool)>)
      requires Valid()
      modifies this
      ensures Valid()
      ensures r.Ok? ==> id in Subscribers() && Subscribers()[id] == r.value.0
      ensures r.Ok? && !r.value.1 ==>
        (id in old(Subscribers()) && r.value.0 == old(Subscribers())[id]
         && Subscribers() == old(Subscribers()))
      ensures r.Ok? && r.value.1 ==>
        (id !in old(Subscribers())
         && r.value.0 == NewSubscriber(id, fullName, username, languageCode, now)
         && Subscribers() == old(Subscribers())[id := r.value.0])
      ensures r.Failed? ==> Subscribers() == old(Subscribers())
      ensures fault(old(calls)) ==> r.Failed?
    {
      var got := GetSubscriber(id);
      if got.Failed? {
        return Failed;
      }
      if got.value.Some? {
        return Ok((got.value.value, false));
      }
      var s := NewSubscriber(id, fullName, username, languageCode, now);
      var added := AddSubscriber(s);
      if added.Failed? {
        return Failed;
      }
      r := Ok((s, true));
    }

    /**
     * update_subscriber_state: false with no write for an absent id;
     * otherwise the stored record gets the new state (nothing else changes)
     * and the answer is true.
     */
    method UpdateSubscriberState(id: int, state: SubscriberState) returns (r: Reply<bool>)
      requires Valid()
      modifies this
      ensures Valid()
      ensures r.Ok? ==> r.value == (id in old(Subscribers()))
      ensures r.Ok? ==> Subscribers() == WithState(old(Subscribers()), id, state)
      ensures r.Failed? ==> Subscribers() == old(Subscribers())
      ensures !fault(old(calls)) && (id !in old(Subscribers()) || !fault(old(calls) + 1)) ==> r.Ok?
      ensures fault(old(calls)) ==> r.Failed?
      ensures calls == old(calls) + (if !fault(old(calls)) && id in old(Subscribers()) then 2 else 1)
    {
      var got := GetSubscriber(id);
      if got.Failed? {
        return Failed;
      }
      if got.value.None? {
        return Ok(false);
      }
      var s := got.value.value.(state := state);
      var written := UpdateSubscriber(s);
      if written.Failed? {
        return Failed;
      }
      r := Ok(true);
    }

    /** mark_as_blocked(id) is update_subscriber_state(id, KICKED). */
    method MarkAsBlocked(id: int) returns (r: Reply<bool>)
      requires Valid()
      modifies this
      ensures Valid()
      ensures r.Ok? ==> r.value == (id in old(Subscribers()))
      ensures r.Ok? ==> Subscribers() == WithState(old(Subscribers()), id, Kicked)
      ensures r.Failed? ==> Subscribers() == old(Subscribers())
    {
      r := UpdateSubscriberState(id, Kicked);
    }
  }

  /** In a list without repetitions, the element at i is not among the earlier ones. */
  lemma NotEarlier(ids: seq<int>, i: int, x: int)
    requires NoDuplicates(ids) && 0 <= i < |ids|
    requires x in ids[..i]
    ensures x != ids[i]
  {
    var j :| 0 <= j < i && ids[..i][j] == x;
  }

  function Ids(subs: seq<Subscriber>): (ids: seq<int>)
    ensures |ids| == |subs|
    ensures forall k :: 0 <= k < |subs| ==> ids[k] == subs[k].id
  {
    seq(|subs|, k requires 0 <= k < |subs| => subs[k].id)
  }

  lemma IdsAppend(subs: seq<Subscriber>, s: Subscriber)
    requires NoDuplicates(Ids(subs))
    requires forall t | t in subs :: t.id != s.id
    ensures NoDuplicates(Ids(subs + [s]))
  {
    var ids := Ids(subs + [s]);
    forall i, j | 0 <= i < j < |ids| ensures ids[i] != ids[j] {
      if j == |subs| {
        assert subs[i] in subs;
      } else {
        assert ids[i] == Ids(subs)[i] && ids[j] == Ids(subs)[j];
      }
    }
  }

  lemma IdsContains(subs: seq<Subscriber>, s: Subscriber)
    requires s in subs
    ensures s.id in Ids(subs)
  {
    var k :| 0 <= k < |subs| && subs[k] == s;
    assert Ids(subs)[k] == s.id;
  }
}
