/*
 * UserRepository (src/db/repositories/user.py) over the users table.
 * The queries are functions of the table; the writes are methods that
 * reassign it.
 */
module UserRepository {
  import opened Common
  import opened Db

  /** A users row together with its id, as the repository returns it. */
  datatype User = User(id: int, row: UserRow)

  /** get: the row under the id, if any. */
  function Get(users: map<int, UserRow>, userId: int): (u: Option<User>)
    ensures u.Some? <==> userId in users
    ensures u.Some? ==> u.value.id == userId && u.value.row == users[userId]
  {
    if userId in users then Some(User(userId, users[userId])) else None
  }

  /**
   * The table after upsert's INSERT ... ON CONFLICT: a new id gets the
   * username and language with no key; an existing id keeps its row except
   * the username, which a non-null new one replaces.
   */
  function Upserted(users: map<int, UserRow>, userId: int, username: Option<string>, language: string)
    : (r: map<int, UserRow>)
    ensures r.Keys == users.Keys + {userId}
    ensures forall k :: k in users && k != userId ==> r[k] == users[k]
  {
    if userId in users then
      var row := users[userId];
      users[userId := row.(username := if username.Some? then username else row.username)]
    else users[userId := UserRow(username, None, language)]
  }

  /**
   * What upsert promises about the row it returns: an existing user keeps
   * its key and language and its username unless a new one is given; a new
   * user has the given username and language and no key.
   */
  lemma UpsertedRow(users: map<int, UserRow>, userId: int, username: Option<string>, language: string)
    ensures var row := Upserted(users, userId, username, language)[userId];
      && (username.Some? ==> row.username == username)
      && (userId in users ==> row.pushoverKey == users[userId].pushoverKey && row.language == users[userId].language)
      && (userId in users && username.None? ==> row == users[userId])
      && (userId !in users ==> row == UserRow(username, None, language))
  {
  }

  /** Repeating an upsert changes nothing more. */
  lemma UpsertIdempotent(users: map<int, UserRow>, userId: int, username: Option<string>, language: string)
    ensures var once := Upserted(users, userId, username, language);
      Upserted(once, userId, username, language) == once
  {
    var once := Upserted(users, userId, username, language);
    var twice := Upserted(once, userId, username, language);
    assert twice.Keys == once.Keys;
    assert twice[userId] == once[userId];
  }

  /** upsert: INSERT ... ON CONFLICT DO UPDATE ... RETURNING *. */
  method Upsert(db: Database, userId: int, username: Option<string>, language: string) returns (u: User)
    modifies db`users
    ensures db.users == Upserted(old(db.users), userId, username, language)
    ensures Get(db.users, userId) == Some(u)
  {
    db.users := Upserted(db.users, userId, username, language);
    u := User(userId, db.users[userId]);
  }

  /** LOWER(username) = LOWER($1): a NULL username matches nothing. */
  predicate NameMatches(row: UserRow, username: string) {
    row.username.Some? && Lower(row.username.value) == Lower(username)
  }

  /**
   * get_by_username: some user whose username matches case-insensitively;
   * which one, when several match, the query leaves to the table scan.
   */
  method GetByUsername(db: Database, username: string) returns (u: Option<User>)
    ensures u.Some? ==> u.value.id in db.users && u.value.row == db.users[u.value.id]
                        && NameMatches(u.value.row, username)
    ensures u.None? <==> forall id :: id in db.users ==> !NameMatches(db.users[id], username)
  {
    if exists id | id in db.users :: NameMatches(db.users[id], username) {
      var id :| id in db.users && NameMatches(db.users[id], username);
      u := Some(User(id, db.users[id]));
    } else {
      u := None;
    }
  }

  /** A username matches its own upper- and lower-case spellings. */
  lemma MatchIgnoresCase(row: UserRow, username: string)
    requires row.username.Some? && Lower(row.username.value) == Lower(username)
    ensures NameMatches(row, Lower(username))
  {
    var l := Lower(username);
    assert Lower(l) == l by {
      forall i | 0 <= i < |l| ensures Lower(l)[i] == l[i] {
        assert LowerChar(LowerChar(username[i])) == LowerChar(username[i]);
      }
    }
  }

  /** The table after UPDATE users SET pushover_key: an existing user's key is set, nothing else changes. */
  function WithKey(users: map<int, UserRow>, userId: int, key: string): (r: map<int, UserRow>)
    ensures r.Keys == users.Keys
    ensures forall k :: k in users && k != userId ==> r[k] == users[k]
    ensures userId in users ==> r[userId] == users[userId].(pushoverKey := Some(key))
  {
    if userId in users then users[userId := users[userId].(pushoverKey := Some(key))] else users
  }

  /** The table after UPDATE users SET language: an existing user's language is set, nothing else changes. */
  function WithLanguage(users: map<int, UserRow>, userId: int, language: string): (r: map<int, UserRow>)
    ensures r.Keys == users.Keys
    ensures forall k :: k in users && k != userId ==> r[k] == users[k]
    ensures userId in users ==> r[userId] == users[userId].(language := language)
  {
    if userId in users then users[userId := users[userId].(language := language)] else users
  }

  /** set_pushover_key: only an existing user's key is set. */
  method SetPushoverKey(db: Database, userId: int, key: string)
    modifies db`users
    ensures db.users == WithKey(old(db.users), userId, key)
  {
    db.users := WithKey(db.users, userId, key);
  }

  /** set_language: only an existing user's language is set. */
  method SetLanguage(db: Database, userId: int, language: string)
    modifies db`users
    ensures db.users == WithLanguage(old(db.users), userId, language)
  {
    db.users := WithLanguage(db.users, userId, language);
  }

  /** get_language: the stored language, or "ru" for a missing user or an empty language. */
  function GetLanguage(users: map<int, UserRow>, userId: int): (lang: string)
    ensures lang != ""
    ensures userId in users && users[userId].language != "" ==> lang == users[userId].language
  {
    if userId in users && users[userId].language != "" then users[userId].language else "ru"
  }

  /** After setting a non-empty language on an existing user, get_language reads it back; other users are untouched. */
  lemma LanguageRoundTrip(users: map<int, UserRow>, userId: int, language: string, other: int)
    requires userId in users && language != ""
    ensures GetLanguage(WithLanguage(users, userId, language), userId) == language
    ensures other != userId ==>
              GetLanguage(WithLanguage(users, userId, language), other) == GetLanguage(users, other)
  {
  }

  /** A user created by upsert reads back its language, or "ru" when it was given empty. */
  lemma NewUserLanguage(users: map<int, UserRow>, userId: int, username: Option<string>, language: string)
    requires userId !in users
    ensures GetLanguage(Upserted(users, userId, username, language), userId) == if language != "" then language else "ru"
  {
  }
}
