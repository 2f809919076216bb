/*
 * An insertion-ordered dictionary keyed by text, as Python's dict behaves:
 * `d[k] = v` replaces the value in place when k is present and appends the
 * pair otherwise, `d.pop(k, None)` drops the pair, `d.values()` lists the
 * values in insertion order. The scheduler's pending-task table and the
 * job store it shares with the UI are both of this kind.
 */
module Entries {
  import opened Common

  datatype Entry<T> = Entry(key: string, value: T)

  /** d.get(k). */
  function Get<T>(s: seq<Entry<T>>, k: string): Option<T> {
    if s == [] then None
    else if s[0].key == k then Some(s[0].value)
    else Get(s[1..], k)
  }

  /** No key occurs twice: what a dict's key set guarantees. */
  predicate Unique<T>(s: seq<Entry<T>>) {
    s == [] || (Get(s[1..], s[0].key).None? && Unique(s[1..]))
  }

  /** d[k] = v. */
  function Put<T>(s: seq<Entry<T>>, k: string, v: T): seq<Entry<T>> {
    if s == [] then [Entry(k, v)]
    else if s[0].key == k then [Entry(k, v)] + s[1..]
    else [s[0]] + Put(s[1..], k, v)
  }

  /** d.pop(k, None), the value discarded. */
  function Remove<T>(s: seq<Entry<T>>, k: string): seq<Entry<T>> {
    if s == [] then []
    else if s[0].key == k then Remove(s[1..], k)
    else [s[0]] + Remove(s[1..], k)
  }

  /** list(d.values()). */
  function Values<T>(s: seq<Entry<T>>): (r: seq<T>)
    ensures |r| == |s|
  {
    if s == [] then [] else [s[0].value] + Values(s[1..])
  }

  /** list(d.keys()). */
  function Keys<T>(s: seq<Entry<T>>): (r: seq<string>)
    ensures |r| == |s|
  {
    if s == [] then [] else [s[0].key] + Keys(s[1..])
  }

  /** After d[k] = v, d.get(k) is v and every other key reads as before. */
  lemma {:induction false} GetPut<T>(s: seq<Entry<T>>, k: string, v: T, q: string)
    ensures Get(Put(s, k, v), q) == if q == k then Some(v) else Get(s, q)
  {
    if s == [] {
    } else if s[0].key == k {
      assert Put(s, k, v)[1..] == s[1..];
    } else {
      assert Put(s, k, v)[1..] == Put(s[1..], k, v);
      GetPut(s[1..], k, v, q);
    }
  }

  /** After d.pop(k), d.get(k) is None and every other key reads as before. */
  lemma {:induction false} GetRemove<T>(s: seq<Entry<T>>, k: string, q: string)
    ensures Get(Remove(s, k), q) == if q == k then None else Get(s, q)
  {
    if s == [] {
    } else if s[0].key == k {
      GetRemove(s[1..], k, q);
    } else {
      assert Remove(s, k)[1..] == Remove(s[1..], k);
      GetRemove(s[1..], k, q);
    }
  }

  /** Popping an absent key leaves the dict as it was. */
  lemma {:induction false} RemoveAbsent<T>(s: seq<Entry<T>>, k: string)
    requires Get(s, k).None?
    ensures Remove(s, k) == s
  {
    if s != [] {
      RemoveAbsent(s[1..], k);
    }
  }

  /** Assignment keeps the keys unique. */
  lemma {:induction false} PutUnique<T>(s: seq<Entry<T>>, k: string, v: T)
    requires Unique(s)
    ensures Unique(Put(s, k, v))
  {
    if s == [] {
    } else if s[0].key == k {
      assert Put(s, k, v)[1..] == s[1..];
    } else {
      var t := Put(s, k, v);
      assert t[1..] == Put(s[1..], k, v);
      PutUnique(s[1..], k, v);
      GetPut(s[1..], k, v, s[0].key);
    }
  }

  /** Popping keeps the keys unique. */
  lemma {:induction false} RemoveUnique<T>(s: seq<Entry<T>>, k: string)
    requires Unique(s)
    ensures Unique(Remove(s, k))
  {
    if s == [] {
    } else if s[0].key == k {
      RemoveUnique(s[1..], k);
    } else {
      var t := Remove(s, k);
      assert t[1..] == Remove(s[1..], k);
      RemoveUnique(s[1..], k);
      GetRemove(s[1..], k, s[0].key);
    }
  }

  /**
   * Assigning to a present key keeps the length and the position of every
   * pair; assigning to an absent one appends a pair at the end.
   */
  lemma {:induction false} PutOrder<T>(s: seq<Entry<T>>, k: string, v: T)
    ensures Get(s, k).None? ==> Put(s, k, v) == s + [Entry(k, v)]
    ensures Get(s, k).Some? ==> |Put(s, k, v)| == |s| && Keys(Put(s, k, v)) == Keys(s)
  {
    if s == [] {
    } else if s[0].key == k {
      assert Put(s, k, v)[1..] == s[1..];
      assert Keys(Put(s, k, v)) == [k] + Keys(s[1..]);
    } else {
      PutOrder(s[1..], k, v);
      var t := Put(s, k, v);
      assert t[1..] == Put(s[1..], k, v);
      if Get(s, k).None? {
        assert s == [s[0]] + s[1..];
      } else {
        assert Keys(t) == [s[0].key] + Keys(t[1..]);
      }
    }
  }

  /** A value stored under a key appears in the listing of values. */
  lemma {:induction false} ValuesListed<T>(s: seq<Entry<T>>, k: string)
    ensures Get(s, k).Some? ==> Get(s, k).value in Values(s)
  {
    if s != [] && s[0].key != k {
      ValuesListed(s[1..], k);
    }
  }

  /** A key reads as present exactly when it is listed among the keys. */
  lemma {:induction false} KeysListed<T>(s: seq<Entry<T>>, k: string)
    ensures Get(s, k).Some? <==> k in Keys(s)
  {
    if s != [] {
      KeysListed(s[1..], k);
    }
  }
}
