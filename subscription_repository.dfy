/*
 * SubscriptionRepository (src/db/repositories/subscription.py) over the
 * subscriptions table joined with users and groups. Rows are kept in one
 * fixed order and the join queries return their rows in it; the SQL has no
 * ORDER BY, so PostgreSQL's actual order is not modelled.
 */
module SubscriptionRepository {
  import opened Common
  import opened Db

  /** The row for (user, group), if any. */
  function Row(subs: seq<SubRow>, userId: int, groupId: int): (r: Option<SubRow>)
    ensures r.Some? ==> r.value in subs && r.value.userId == userId && r.value.groupId == groupId
    ensures r.None? ==> forall i :: 0 <= i < |subs| ==> subs[i].userId != userId || subs[i].groupId != groupId
  {
    if subs == [] then None
    else if subs[0].userId == userId && subs[0].groupId == groupId then Some(subs[0])
    else Row(subs[1..], userId, groupId)
  }

  /** is_enabled: the row's flag, False when there is no row. */
  function IsEnabled(subs: seq<SubRow>, userId: int, groupId: int): bool {
    var r := Row(subs, userId, groupId);
    r.Some? && r.value.enabled
  }

  /** The table after enable's INSERT ... ON CONFLICT DO UPDATE SET enabled = TRUE. */
  function Enabled(subs: seq<SubRow>, userId: int, groupId: int): (r: seq<SubRow>)
    ensures |r| == |subs| || (|r| == |subs| + 1 && r == subs + [SubRow(userId, groupId, true)])
  {
    if subs == [] then [SubRow(userId, groupId, true)]
    else if subs[0].userId == userId && subs[0].groupId == groupId then [subs[0].(enabled := true)] + subs[1..]
    else [subs[0]] + Enabled(subs[1..], userId, groupId)
  }

  /** The table after disable's UPDATE ... SET enabled = FALSE: no row is inserted. */
  function Disabled(subs: seq<SubRow>, userId: int, groupId: int): (r: seq<SubRow>)
    ensures |r| == |subs|
  {
    if subs == [] then []
    else if subs[0].userId == userId && subs[0].groupId == groupId then [subs[0].(enabled := false)] + subs[1..]
    else [subs[0]] + Disabled(subs[1..], userId, groupId)
  }

  /** After enable(u, g), is_enabled(u, g) holds; every other pair reads as before. */
  lemma {:induction false} EnableThenEnabled(subs: seq<SubRow>, userId: int, groupId: int, u: int, g: int)
    ensures IsEnabled(Enabled(subs, userId, groupId), u, g) == ((u == userId && g == groupId) || IsEnabled(subs, u, g))
  {
    if subs != [] && !(subs[0].userId == userId && subs[0].groupId == groupId) {
      EnableThenEnabled(subs[1..], userId, groupId, u, g);
    }
  }

  /** After disable(u, g), is_enabled(u, g) is False; every other pair reads as before. */
  lemma {:induction false} DisableThenDisabled(subs: seq<SubRow>, userId: int, groupId: int, u: int, g: int)
    ensures IsEnabled(Disabled(subs, userId, groupId), u, g) == (!(u == userId && g == groupId) && IsEnabled(subs, u, g))
  {
    if subs != [] && !(subs[0].userId == userId && subs[0].groupId == groupId) {
      DisableThenDisabled(subs[1..], userId, groupId, u, g);
    }
  }

  /** Disabling a pair that has no row leaves the table as it is. */
  lemma {:induction false} DisableAbsent(subs: seq<SubRow>, userId: int, groupId: int)
    requires Row(subs, userId, groupId).None?
    ensures Disabled(subs, userId, groupId) == subs
  {
    if subs != [] {
      DisableAbsent(subs[1..], userId, groupId);
    }
  }

  /** Enabling is idempotent. */
  lemma {:induction false} EnableIdempotent(subs: seq<SubRow>, userId: int, groupId: int)
    ensures Enabled(Enabled(subs, userId, groupId), userId, groupId) == Enabled(subs, userId, groupId)
  {
    if subs != [] && !(subs[0].userId == userId && subs[0].groupId == groupId) {
      EnableIdempotent(subs[1..], userId, groupId);
    }
  }

  /** Enabling and disabling keep the (user_id, group_id) key unique. */
  lemma UpdatesKeepKeys(subs: seq<SubRow>, userId: int, groupId: int)
    requires UniquePairs(subs)
    ensures UniquePairs(Enabled(subs, userId, groupId))
    ensures UniquePairs(Disabled(subs, userId, groupId))
  {
    EnableKeepsKeys(subs, userId, groupId);
    DisableKeepsKeys(subs, userId, groupId);
  }

  lemma {:induction false} EnableKeepsKeys(subs: seq<SubRow>, userId: int, groupId: int)
    requires UniquePairs(subs)
    ensures UniquePairs(Enabled(subs, userId, groupId))
  {
    if subs != [] {
      EnableKeepsKeys(subs[1..], userId, groupId);
      SamePairs(subs[1..], userId, groupId);
      var e := Enabled(subs, userId, groupId);
      if !(subs[0].userId == userId && subs[0].groupId == groupId) {
        var er := Enabled(subs[1..], userId, groupId);
        assert e == [subs[0]] + er;
        forall j | 0 < j < |e| ensures (e[0].userId, e[0].groupId) != (e[j].userId, e[j].groupId) {
          assert e[j] == er[j - 1];
          if j - 1 < |subs| - 1 {
            assert (er[j - 1].userId, er[j - 1].groupId) == (subs[j].userId, subs[j].groupId);
          }
        }
      } else {
        forall j | 0 < j < |e| ensures (e[0].userId, e[0].groupId) != (e[j].userId, e[j].groupId) {
          assert e[j] == subs[j];
        }
      }
    }
  }

  lemma {:induction false} DisableKeepsKeys(subs: seq<SubRow>, userId: int, groupId: int)
    requires UniquePairs(subs)
    ensures UniquePairs(Disabled(subs, userId, groupId))
  {
    if subs != [] {
      DisableKeepsKeys(subs[1..], userId, groupId);
      SamePairs(subs[1..], userId, groupId);
      var d := Disabled(subs, userId, groupId);
      if !(subs[0].userId == userId && subs[0].groupId == groupId) {
        forall j | 0 < j < |d| ensures (d[0].userId, d[0].groupId) != (d[j].userId, d[j].groupId) {
          assert (d[j].userId, d[j].groupId) == (subs[j].userId, subs[j].groupId);
        }
      } else {
        forall j | 0 < j < |d| ensures (d[0].userId, d[0].groupId) != (d[j].userId, d[j].groupId) {
          assert d[j] == subs[j];
        }
      }
    }
  }

  /** Updating rows in place keeps each row's key; an inserted row has the new key. */
  lemma {:induction false} SamePairs(subs: seq<SubRow>, userId: int, groupId: int)
    ensures forall i :: 0 <= i < |subs| ==>
              (Enabled(subs, userId, groupId)[i].userId, Enabled(subs, userId, groupId)[i].groupId) == (subs[i].userId, subs[i].groupId)
    ensures |Enabled(subs, userId, groupId)| == |subs| + 1 ==>
              Row(subs, userId, groupId).None? && Enabled(subs, userId, groupId)[|subs|] == SubRow(userId, groupId, true)
    ensures forall i :: 0 <= i < |subs| ==>
              (Disabled(subs, userId, groupId)[i].userId, Disabled(subs, userId, groupId)[i].groupId) == (subs[i].userId, subs[i].groupId)
  {
    if subs != [] && !(subs[0].userId == userId && subs[0].groupId == groupId) {
      SamePairs(subs[1..], userId, groupId);
    }
  }

  /** enable: INSERT ... ON CONFLICT (user_id, group_id) DO UPDATE SET enabled = TRUE. */
  method Enable(db: Database, userId: int, groupId: int)
    modifies db`subscriptions
    ensures db.subscriptions == Enabled(old(db.subscriptions), userId, groupId)
  {
    db.subscriptions := Enabled(db.subscriptions, userId, groupId);
  }

  /** disable: UPDATE ... SET enabled = FALSE WHERE user_id = $1 AND group_id = $2. */
  method Disable(db: Database, userId: int, groupId: int)
    modifies db`subscriptions
    ensures db.subscriptions == Disabled(old(db.subscriptions), userId, groupId)
  {
    db.subscriptions := Disabled(db.subscriptions, userId, groupId);
  }

  // ---------------------------------------------------------------------
  // Queries
  // ---------------------------------------------------------------------

  /** The join condition of the group queries: an enabled row of the group whose user has a key. */
  predicate Reachable(row: SubRow, users: map<int, UserRow>, groupId: int) {
    row.groupId == groupId && row.enabled && row.userId in users && users[row.userId].pushoverKey.Some?
  }

  /** get_enabled_users_with_keys: (user id, key) for each reachable row, in scan order. */
  function EnabledUsersWithKeys(subs: seq<SubRow>, users: map<int, UserRow>, groupId: int)
    : (r: seq<(int, string)>)
    ensures |r| <= |subs|
    ensures forall k :: 0 <= k < |r| ==> r[k].0 in users && users[r[k].0].pushoverKey == Some(r[k].1)
  {
    if subs == [] then []
    else
      var rest := EnabledUsersWithKeys(subs[1..], users, groupId);
      if Reachable(subs[0], users, groupId) then [(subs[0].userId, users[subs[0].userId].pushoverKey.value)] + rest
      else rest
  }

  /** A user is listed exactly when it has an enabled subscription to the group and a key. */
  lemma {:induction false} EnabledUsersListed(subs: seq<SubRow>, users: map<int, UserRow>, groupId: int, userId: int)
    ensures (exists k :: 0 <= k < |EnabledUsersWithKeys(subs, users, groupId)|
                         && EnabledUsersWithKeys(subs, users, groupId)[k].0 == userId)
            <==> (exists i :: 0 <= i < |subs| && subs[i].userId == userId && Reachable(subs[i], users, groupId))
  {
    if subs != [] {
      EnabledUsersListed(subs[1..], users, groupId, userId);
      var rest := EnabledUsersWithKeys(subs[1..], users, groupId);
      var r := EnabledUsersWithKeys(subs, users, groupId);
      if exists i :: 0 <= i < |subs| && subs[i].userId == userId && Reachable(subs[i], users, groupId) {
        var i :| 0 <= i < |subs| && subs[i].userId == userId && Reachable(subs[i], users, groupId);
        if i > 0 {
          assert subs[1..][i - 1] == subs[i];
          var k :| 0 <= k < |rest| && rest[k].0 == userId;
          if Reachable(subs[0], users, groupId) {
            assert r[k + 1] == rest[k];
          }
        } else {
          assert r[0].0 == userId;
        }
      }
      if exists k :: 0 <= k < |r| && r[k].0 == userId {
        var k :| 0 <= k < |r| && r[k].0 == userId;
        if Reachable(subs[0], users, groupId) {
          if k > 0 {
            assert rest[k - 1] == r[k];
            var i :| 0 <= i < |subs[1..]| && subs[1..][i].userId == userId && Reachable(subs[1..][i], users, groupId);
            assert subs[i + 1] == subs[1..][i];
          }
        } else {
          assert rest[k] == r[k];
          var i :| 0 <= i < |subs[1..]| && subs[1..][i].userId == userId && Reachable(subs[1..][i], users, groupId);
          assert subs[i + 1] == subs[1..][i];
        }
      }
    }
  }

  /** get_enabled_users_in_group: the ids of get_enabled_users_with_keys, same filter, same order. */
  function EnabledUsersInGroup(subs: seq<SubRow>, users: map<int, UserRow>, groupId: int): (r: seq<int>)
    ensures |r| == |EnabledUsersWithKeys(subs, users, groupId)|
    ensures forall k :: 0 <= k < |r| ==> r[k] == EnabledUsersWithKeys(subs, users, groupId)[k].0
  {
    if subs == [] then []
    else
      var rest := EnabledUsersInGroup(subs[1..], users, groupId);
      if Reachable(subs[0], users, groupId) then [subs[0].userId] + rest else rest
  }

  /** get_user_with_key: the id and key of a user that has a key. */
  function UserWithKey(users: map<int, UserRow>, userId: int): (r: Option<(int, string)>)
    ensures r.Some? <==> userId in users && users[userId].pushoverKey.Some?
    ensures r.Some? ==> r.value == (userId, users[userId].pushoverKey.value)
  {
    if userId in users && users[userId].pushoverKey.Some? then Some((userId, users[userId].pushoverKey.value)) else None
  }

  /** get_user_groups: (group id, title, bot_active) of each group the user has enabled, in scan order. */
  function UserGroups(subs: seq<SubRow>, groups: map<int, GroupRow>, userId: int)
    : (r: seq<(int, Option<string>, bool)>)
    ensures |r| <= |subs|
    ensures forall k :: 0 <= k < |r| ==> r[k].0 in groups && r[k].1 == groups[r[k].0].title && r[k].2 == groups[r[k].0].botActive
  {
    if subs == [] then []
    else
      var rest := UserGroups(subs[1..], groups, userId);
      var row := subs[0];
      if row.userId == userId && row.enabled && row.groupId in groups then
        [(row.groupId, groups[row.groupId].title, groups[row.groupId].botActive)] + rest
      else rest
  }

  /** get_active_subscription_count: the user's enabled rows. */
  function ActiveSubscriptionCount(subs: seq<SubRow>, userId: int): (n: nat)
    ensures n <= |subs|
  {
    if subs == [] then 0
    else (if subs[0].userId == userId && subs[0].enabled then 1 else 0) + ActiveSubscriptionCount(subs[1..], userId)
  }

  /** The count is positive exactly when the user has enabled some group. */
  lemma {:induction false} ActiveCountPositive(subs: seq<SubRow>, userId: int)
    ensures ActiveSubscriptionCount(subs, userId) > 0 <==> exists i :: 0 <= i < |subs| && subs[i].userId == userId && subs[i].enabled
  {
    if subs != [] {
      ActiveCountPositive(subs[1..], userId);
      if exists i :: 0 <= i < |subs[1..]| && subs[1..][i].userId == userId && subs[1..][i].enabled {
        var i :| 0 <= i < |subs[1..]| && subs[1..][i].userId == userId && subs[1..][i].enabled;
        assert subs[i + 1] == subs[1..][i];
      }
      if exists i :: 0 <= i < |subs| && subs[i].userId == userId && subs[i].enabled {
        var i :| 0 <= i < |subs| && subs[i].userId == userId && subs[i].enabled;
        if i > 0 {
          assert subs[1..][i - 1] == subs[i];
        }
      }
    }
  }

  /** Enabling a group that was not enabled adds one to the user's count. */
  lemma {:induction false} EnableCounts(subs: seq<SubRow>, userId: int, groupId: int)
    requires !IsEnabled(subs, userId, groupId)
    ensures ActiveSubscriptionCount(Enabled(subs, userId, groupId), userId) == ActiveSubscriptionCount(subs, userId) + 1
  {
    if subs != [] && !(subs[0].userId == userId && subs[0].groupId == groupId) {
      EnableCounts(subs[1..], userId, groupId);
    }
  }

  /**
   * get_enabled_user_by_username: the first reachable row of the group whose
   * user's username matches case-insensitively; a NULL username matches
   * nothing.
   */
  function EnabledUserByUsername(subs: seq<SubRow>, users: map<int, UserRow>, username: string, groupId: int)
    : (r: Option<(int, string)>)
    ensures r.Some? ==> r.value.0 in users && users[r.value.0].pushoverKey == Some(r.value.1)
                        && users[r.value.0].username.Some? && Lower(users[r.value.0].username.value) == Lower(username)
  {
    if subs == [] then None
    else
      var row := subs[0];
      if Reachable(row, users, groupId) && users[row.userId].username.Some?
         && Lower(users[row.userId].username.value) == Lower(username)
      then Some((row.userId, users[row.userId].pushoverKey.value))
      else EnabledUserByUsername(subs[1..], users, username, groupId)
  }

  /** The lookup finds nobody exactly when no reachable subscriber of the group has that username. */
  lemma {:induction false} UsernameNotFound(subs: seq<SubRow>, users: map<int, UserRow>, username: string, groupId: int)
    ensures EnabledUserByUsername(subs, users, username, groupId).None? <==>
            forall i :: 0 <= i < |subs| && Reachable(subs[i], users, groupId) ==>
              users[subs[i].userId].username.None? || Lower(users[subs[i].userId].username.value) != Lower(username)
  {
    if subs != [] {
      UsernameNotFound(subs[1..], users, username, groupId);
      assert forall i :: 1 <= i < |subs| ==> subs[i] == subs[1..][i - 1];
    }
  }
}
