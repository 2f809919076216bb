/*
 * The bot's PostgreSQL database (src/db/database.py, src/db/models.py):
 * the tables as in-memory rows, the migration runner and ensure_database.
 * Each table is a field the repository operations reassign; NOW() is a
 * parameter of the operations that stamp rows.
 */
module Db {
  import opened Common

  /** A users row. */
  datatype UserRow = UserRow(username: Option<string>, pushoverKey: Option<string>, language: string)

  /** A groups row; a new row takes the column defaults only_admin FALSE, language 'en', bot_active TRUE. */
  datatype GroupRow = GroupRow(title: Option<string>, onlyAdmin: bool, language: string, botActive: bool)

  /** A subscriptions row; (user_id, group_id) is the table's key. */
  datatype SubRow = SubRow(userId: int, groupId: int, enabled: bool)

  /** A notification_logs row. */
  datatype LogRow = LogRow(groupId: Option<int>, senderId: int, recipientId: int, kind: string,
                           success: bool, error: Option<string>, createdAt: int)

  /** A gm_history row. */
  datatype GmRow = GmRow(groupId: int, userId: int, calledAt: int)

  /** No two subscription rows share a (user_id, group_id) pair. */
  predicate UniquePairs(subs: seq<SubRow>) {
    forall i, j :: 0 <= i < j < |subs| ==> (subs[i].userId, subs[i].groupId) != (subs[j].userId, subs[j].groupId)
  }

  // ---------------------------------------------------------------------
  // Python's ordering of file names
  // ---------------------------------------------------------------------

  /** a <= b in Python's code-point order on strings. */
  predicate NameLe(a: string, b: string)
    decreases |a|
  {
    a == [] || (b != [] && (a[0] < b[0] || (a[0] == b[0] && NameLe(a[1..], b[1..]))))
  }

  lemma {:induction false} NameLeTotal(a: string, b: string)
    ensures NameLe(a, b) || NameLe(b, a)
    decreases |a|
  {
    if a != [] && b != [] && a[0] == b[0] {
      NameLeTotal(a[1..], b[1..]);
    }
  }

  lemma {:induction false} NameLeAntisymmetric(a: string, b: string)
    requires NameLe(a, b) && NameLe(b, a)
    ensures a == b
    decreases |a|
  {
    if a != [] {
      NameLeAntisymmetric(a[1..], b[1..]);
      assert a == [a[0]] + a[1..] && b == [b[0]] + b[1..];
    }
  }

  lemma {:induction false} NameLeTransitive(a: string, b: string, c: string)
    requires NameLe(a, b) && NameLe(b, c)
    ensures NameLe(a, c)
    decreases |a|
  {
    if a != [] && a[0] == b[0] && b[0] == c[0] {
      NameLeTransitive(a[1..], b[1..], c[1..]);
    }
  }

  predicate IsFirstName(m: string, s: set<string>) {
    m in s && forall x :: x in s ==> NameLe(m, x)
  }

  lemma {:induction false} FirstNameExists(s: set<string>)
    requires s != {}
    ensures exists m :: IsFirstName(m, s)
    decreases |s|
  {
    var x :| x in s;
    if s - {x} == {} {
      assert s == {x};
      NameLeTotal(x, x);
      assert IsFirstName(x, s);
    } else {
      FirstNameExists(s - {x});
      var m :| IsFirstName(m, s - {x});
      NameLeTotal(m, x);
      if NameLe(m, x) {
        assert IsFirstName(m, s);
      } else {
        forall y | y in s ensures NameLe(x, y) {
          if y != x {
            NameLeTransitive(x, m, y);
          } else {
            NameLeTotal(x, x);
          }
        }
        assert IsFirstName(x, s);
      }
    }
  }

  lemma FirstNameUnique(m: string, n: string, s: set<string>)
    requires IsFirstName(m, s) && IsFirstName(n, s)
    ensures m == n
  {
    NameLeAntisymmetric(m, n);
  }

  ghost function FirstName(s: set<string>): (m: string)
    requires s != {}
    ensures IsFirstName(m, s)
  {
    FirstNameExists(s);
    var m :| IsFirstName(m, s);
    m
  }

  /** sorted(names): the names in ascending order. */
  ghost function SortedNames(s: set<string>): (r: seq<string>)
    decreases |s|
  {
    if s == {} then []
    else
      var m := FirstName(s);
      [m] + SortedNames(s - {m})
  }

  /** sorted() lists every name once, in ascending order. */
  lemma {:induction false} SortedNamesSpec(s: set<string>)
    ensures |SortedNames(s)| == |s|
    ensures forall x :: x in SortedNames(s) <==> x in s
    ensures forall i, j :: 0 <= i < j < |SortedNames(s)| ==> NameLe(SortedNames(s)[i], SortedNames(s)[j])
    decreases |s|
  {
    if s != {} {
      var m := FirstName(s);
      var rest := SortedNames(s - {m});
      SortedNamesSpec(s - {m});
      var r := SortedNames(s);
      assert r == [m] + rest;
      forall i, j | 0 <= i < j < |r| ensures NameLe(r[i], r[j]) {
        if i == 0 {
          assert r[j] == rest[j - 1] && rest[j - 1] in rest;
        } else {
          assert r[i] == rest[i - 1] && r[j] == rest[j - 1];
        }
      }
    }
  }

  /** The names recorded in schema_migrations, as the set the runner reads. */
  function AppliedSet(rows: seq<string>): set<string> {
    set x | x in rows
  }

  /** The files of `sorted` whose names are not in `applied`, in the same order. */
  function Pending(sorted: seq<string>, applied: set<string>): seq<string> {
    if sorted == [] then []
    else if sorted[0] in applied then Pending(sorted[1..], applied)
    else [sorted[0]] + Pending(sorted[1..], applied)
  }

  /** Pending keeps exactly the files not yet applied, and never more of them than there are. */
  lemma {:induction false} PendingMembers(sorted: seq<string>, applied: set<string>)
    ensures var r := Pending(sorted, applied);
      (forall x :: x in r <==> x in sorted && x !in applied) && |r| <= |sorted|
  {
    if sorted != [] {
      PendingMembers(sorted[1..], applied);
      assert forall x :: x in sorted <==> x == sorted[0] || x in sorted[1..];
    }
  }

  lemma {:induction false} PendingNone(sorted: seq<string>, applied: set<string>)
    requires forall x :: x in sorted ==> x in applied
    ensures Pending(sorted, applied) == []
  {
    if sorted != [] {
      assert sorted[0] in applied;
      PendingNone(sorted[1..], applied);
    }
  }

  /** A run that recorded its pending files leaves nothing pending for the next run. */
  lemma SecondRunIdle(sorted: seq<string>, applied: seq<string>)
    ensures Pending(sorted, AppliedSet(applied + Pending(sorted, AppliedSet(applied)))) == []
  {
    var rows := applied + Pending(sorted, AppliedSet(applied));
    PendingMembers(sorted, AppliedSet(applied));
    forall x | x in sorted ensures x in AppliedSet(rows) {
      if x in applied {
        assert x in rows;
      } else {
        assert x in Pending(sorted, AppliedSet(applied));
        assert x in rows;
      }
    }
    PendingNone(sorted, AppliedSet(rows));
  }

  /** The process's view of the database and of the server that hosts it. */
  class Database {
    var users: map<int, UserRow>
    var groups: map<int, GroupRow>
    var subscriptions: seq<SubRow>
    var logs: seq<LogRow>
    var gmHistory: seq<GmRow>
    /** Whether schema_migrations exists, and its filename rows. */
    var migrationsTable: bool
    var migrations: seq<string>
    /** The migration files whose SQL has been executed, in order. */
    var executed: seq<string>
    /** The databases on the server, and the CREATE DATABASE statements issued. */
    var serverDatabases: set<string>
    var created: seq<string>

    constructor (serverDatabases: set<string>)
      ensures this.serverDatabases == serverDatabases && created == []
      ensures users == map[] && groups == map[] && subscriptions == [] && logs == [] && gmHistory == []
      ensures !migrationsTable && migrations == [] && executed == []
    {
      this.serverDatabases := serverDatabases;
      created := [];
      users, groups, subscriptions, logs, gmHistory := map[], map[], [], [], [];
      migrationsTable, migrations, executed := false, [], [];
    }

    predicate Valid()
      reads this
    {
      UniquePairs(subscriptions)
    }

    /** ensure_database: CREATE DATABASE only for a name the server does not hold. */
    method EnsureDatabase(name: string)
      modifies this`serverDatabases, this`created
      ensures serverDatabases == old(serverDatabases) + {name}
      ensures name in old(serverDatabases) ==> created == old(created)
      ensures name !in old(serverDatabases) ==> created == old(created) + [name]
    {
      var found := name in serverDatabases;
      if !found {
        created := created + [name];
        serverDatabases := serverDatabases + {name};
      }
    }

    /**
     * run_migrations: schema_migrations is created if missing and read once;
     * then every file of the migrations directory not recorded there is
     * executed, in sorted name order, and recorded right after.
     */
    method RunMigrations(files: set<string>)
      modifies this`migrationsTable, this`migrations, this`executed
      ensures migrationsTable
      ensures var before := if old(migrationsTable) then old(migrations) else [];
        var run := Pending(SortedNames(files), AppliedSet(before));
        && executed == old(executed) + run
        && migrations == before + run
    {
      if !migrationsTable {
        migrationsTable, migrations := true, [];
      }
      ghost var before := migrations;
      var applied := AppliedSet(migrations);
      var remaining := files;
      ghost var done: seq<string> := [];
      while remaining != {}
        invariant migrationsTable
        invariant done + SortedNames(remaining) == SortedNames(files)
        invariant executed == old(executed) + Pending(done, applied)
        invariant migrations == before + Pending(done, applied)
        decreases |remaining|
      {
        FirstNameExists(remaining);
        var name :| IsFirstName(name, remaining);
        SortedNamesFirst(remaining, name, done);
        PendingSnoc(done, name, applied);
        ghost var pending := Pending(done, applied);
        ghost var executedBefore := old(executed);
        if name !in applied {
          ConcatAssoc(executedBefore, pending, [name]);
          ConcatAssoc(before, pending, [name]);
          executed := executed + [name];
          migrations := migrations + [name];
        }
        done := done + [name];
        remaining := remaining - {name};
      }
      assert done == SortedNames(files);
    }
  }

  /** sorted() starts with the first name. */
  lemma SortedNamesFirst(s: set<string>, m: string, done: seq<string>)
    requires IsFirstName(m, s)
    ensures (done + [m]) + SortedNames(s - {m}) == done + SortedNames(s)
  {
    FirstNameUnique(m, FirstName(s), s);
  }

  lemma {:induction false} PendingSnoc(done: seq<string>, x: string, applied: set<string>)
    ensures Pending(done + [x], applied) == Pending(done, applied) + (if x in applied then [] else [x])
  {
    if done == [] {
      assert done + [x] == [x];
    } else {
      assert (done + [x])[1..] == done[1..] + [x];
      PendingSnoc(done[1..], x, applied);
    }
  }
}
