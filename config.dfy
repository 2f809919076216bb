/*
 * The bot's settings (src/config.py): the three derived properties,
 * admin_ids_list, redis_url and database_url, over the raw settings.
 */
module Config {
  import opened Common

  /** The raw fields the derived properties read. */
  datatype Settings = Settings(
    dbHost: string, dbPort: int, dbName: string, dbUser: string, dbPassword: string,
    redisHost: string, redisPort: int, redisDb: int, redisPassword: Option<string>,
    adminIds: string)

  // ---------------------------------------------------------------------
  // admin_ids_list
  // ---------------------------------------------------------------------

  /** The comprehension over the comma-separated pieces: all-digit pieces, stripped, as ints, in order. */
  function DigitPieces(pieces: seq<string>): (ids: seq<nat>)
    ensures |ids| <= |pieces|
  {
    if pieces == [] then []
    else
      var t := Strip(pieces[0]);
      if IsDigits(t) then [DigitsValue(t)] + DigitPieces(pieces[1..]) else DigitPieces(pieces[1..])
  }

  /** admin_ids_list: [] for an empty setting, otherwise the digit pieces of its comma split. */
  function AdminIdsList(adminIds: string): (ids: seq<nat>)
    ensures adminIds == "" ==> ids == []
    ensures |ids| <= |Split(adminIds, ',')|
  {
    if adminIds == "" then [] else DigitPieces(Split(adminIds, ','))
  }

  /** A piece that is not all digits after stripping (a negative id, a name, an empty piece) adds no id. */
  lemma {:induction false} JunkDropped(before: seq<string>, junk: string, after: seq<string>)
    requires !IsDigits(Strip(junk))
    ensures DigitPieces(before + [junk] + after) == DigitPieces(before) + DigitPieces(after)
  {
    if before == [] {
      assert before + [junk] + after == [junk] + after;
      assert ([junk] + after)[1..] == after;
    } else {
      assert (before + [junk] + after)[0] == before[0];
      assert (before + [junk] + after)[1..] == before[1..] + [junk] + after;
      JunkDropped(before[1..], junk, after);
    }
  }

  /** The decimal texts of some ids. */
  function DecimalTexts(ids: seq<nat>): (ts: seq<string>)
    ensures |ts| == |ids|
    ensures forall k :: 0 <= k < |ts| ==> ts[k] == NatToString(ids[k])
  {
    if ids == [] then [] else [NatToString(ids[0])] + DecimalTexts(ids[1..])
  }

  /** Each decimal text is already stripped and reads back as its number. */
  lemma {:induction false} DigitPiecesOfTexts(ids: seq<nat>)
    ensures DigitPieces(DecimalTexts(ids)) == ids
  {
    if ids != [] {
      var t := NatToString(ids[0]);
      assert IsDigit(t[0]) && IsDigit(t[|t| - 1]);
      StripKeeps(t);
      NatToStringValue(ids[0]);
      assert DecimalTexts(ids)[1..] == DecimalTexts(ids[1..]);
      DigitPiecesOfTexts(ids[1..]);
    }
  }

  /** Writing non-negative ids comma-separated gives them back, in order. */
  lemma AdminIdsRoundTrip(ids: seq<nat>)
    requires ids != []
    ensures AdminIdsList(Join(DecimalTexts(ids), ',')) == ids
  {
    var ts := DecimalTexts(ids);
    forall k | 0 <= k < |ts| ensures ',' !in ts[k] {
      assert IsDigits(ts[k]);
    }
    SplitJoin(ts, ',');
    var s := Join(ts, ',');
    assert s != "" by {
      JoinNonEmpty(ts, ',');
    }
    DigitPiecesOfTexts(ids);
  }

  /** A join whose first piece is non-empty is non-empty. */
  lemma JoinNonEmpty(parts: seq<string>, sep: char)
    requires parts != [] && parts[0] != ""
    ensures Join(parts, sep) != ""
  {
    if |parts| > 1 {
      assert Join(parts, sep)[0] == parts[0][0];
    }
  }

  // ---------------------------------------------------------------------
  // redis_url and database_url
  // ---------------------------------------------------------------------

  /** "{host}:{port}/{db}": the part of a Redis URL after the credentials. */
  function RedisAddress(s: Settings): string {
    s.redisHost + ":" + IntToString(s.redisPort) + "/" + IntToString(s.redisDb)
  }

  /** redis_url: a truthy password goes in as ":{password}@" right after the scheme. */
  function RedisUrl(s: Settings): (url: string)
    ensures StartsWith(url, "redis://")
    ensures EndsWith(url, RedisAddress(s))
  {
    if s.redisPassword.Some? && s.redisPassword.value != "" then
      "redis://:" + s.redisPassword.value + "@" + RedisAddress(s)
    else "redis://" + RedisAddress(s)
  }

  /**
   * The URL carries the ":{password}@" credentials part exactly when the
   * password is set and non-empty (for a host that does not itself start
   * with ':').
   */
  lemma RedisUrlCredentials(s: Settings)
    requires s.redisHost != "" && s.redisHost[0] != ':'
    ensures StartsWith(RedisUrl(s), "redis://:") <==> s.redisPassword.Some? && s.redisPassword.value != ""
    ensures s.redisPassword.Some? && s.redisPassword.value != "" ==>
              StartsWith(RedisUrl(s), "redis://:" + s.redisPassword.value + "@")
  {
    var url := RedisUrl(s);
    if !(s.redisPassword.Some? && s.redisPassword.value != "") {
      assert url[8] == s.redisHost[0];
    } else {
      var pre := "redis://:" + s.redisPassword.value + "@";
      assert url[..|pre|] == pre;
    }
  }

  /** database_url: postgresql://{user}:{password}@{host}:{port}/{name}. */
  function DatabaseUrl(s: Settings): (url: string)
    ensures StartsWith(url, "postgresql://")
  {
    "postgresql://" + s.dbUser + ":" + s.dbPassword + "@" + s.dbHost + ":" + IntToString(s.dbPort) + "/" + s.dbName
  }

  /** The fields a connection string names. */
  datatype DbTarget = DbTarget(user: string, password: string, host: string, rest: string)

  /** The text before the first `c` and the text after it, if `c` occurs. */
  function Cut(s: string, c: char): Option<(string, string)> {
    var i := IndexOf(s, c);
    if i == |s| then None else Some((s[..i], s[i + 1..]))
  }

  /** Cutting at a separator the head does not contain gives back head and tail. */
  lemma CutConcat(head: string, c: char, tail: string)
    requires c !in head
    ensures Cut(head + [c] + tail, c) == Some((head, tail))
  {
    var s := head + [c] + tail;
    IndexOfConcat(head, c, tail);
    assert s[..|head|] == head && s[|head| + 1..] == tail;
  }

  /** Reads a connection string back: user up to ':', password up to '@', host up to ':', then port/name. */
  function ParseDatabaseUrl(url: string): Option<DbTarget> {
    if !StartsWith(url, "postgresql://") then None
    else
      match Cut(url[13..], ':')
      case None => None
      case Some((user, b)) =>
        match Cut(b, '@')
        case None => None
        case Some((password, c)) =>
          match Cut(c, ':')
          case None => None
          case Some((host, rest)) => Some(DbTarget(user, password, host, rest))
  }

  /**
   * A connection string gives back the user, password and host it was
   * built from, and "{port}/{name}", as long as the user and host hold no
   * ':' and the password no '@'.
   */
  lemma DatabaseUrlRoundTrip(s: Settings)
    requires ':' !in s.dbUser && '@' !in s.dbPassword && ':' !in s.dbHost
    ensures ParseDatabaseUrl(DatabaseUrl(s))
            == Some(DbTarget(s.dbUser, s.dbPassword, s.dbHost, IntToString(s.dbPort) + "/" + s.dbName))
  {
    var tail := IntToString(s.dbPort) + "/" + s.dbName;
    var c := s.dbHost + [':'] + tail;
    var b := s.dbPassword + ['@'] + c;
    var a := s.dbUser + [':'] + b;
    assert DatabaseUrl(s) == "postgresql://" + a;
    assert DatabaseUrl(s)[13..] == a;
    CutConcat(s.dbUser, ':', b);
    CutConcat(s.dbPassword, '@', c);
    CutConcat(s.dbHost, ':', tail);
  }
}
