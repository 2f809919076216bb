/*
 * The broadcast UI's helpers: the FSM context the menu keeps its state and
 * data in, the DataStorage wrapper that stores encoded values there, the
 * URL and date/time validators, and the send-copy and delete helpers with
 * the Telegram calls as outcome oracles.
 */
module UiUtils {
  import opened Common

  /** BroadcastUIState: the ten windows of the menu. */
  datatype UiState =
    | BroadcastsList
    | BroadcastView
    | BroadcastDelete
    | SendMessage
    | SendButtons
    | MessagePreview
    | ChooseOptions
    | ConfirmationNow
    | SendDatetime
    | ConfirmationLater

  /** The FSM context of one user: the current state and the data dict. */
  class FsmContext {
    var state: Option<UiState>
    var data: map<string, Value>
    /** How many times the data dict was written back. */
    ghost var writes: nat

    constructor (state0: Option<UiState>, data0: map<string, Value>)
      ensures state == state0 && data == data0 && writes == 0
    {
      state := state0;
      data := data0;
      writes := 0;
    }

    /** update_data(**values): the given keys take the given values. */
    method UpdateData(values: map<string, Value>)
      modifies this
      ensures data == old(data) + values && state == old(state) && writes == old(writes) + 1
    {
      data := data + values;
      writes := writes + 1;
    }

    /** set_data(d). */
    method SetData(d: map<string, Value>)
      modifies this
      ensures data == d && state == old(state) && writes == old(writes) + 1
    {
      data := d;
      writes := writes + 1;
    }

    /** set_state(s). */
    method SetState(s: Option<UiState>)
      modifies this
      ensures state == s && data == old(data) && writes == old(writes)
    {
      state := s;
    }
  }

  // ---------------------------------------------------------------------
  // DataStorage
  // ---------------------------------------------------------------------

  /** _from_hex: only text produced by _to_hex decodes. */
  function Decode(v: Value): Option<Value> {
    if v.VHex? then Some(v.payload) else None
  }

  /** get(key, default) on a data dict: missing, None or undecodable all give the default. */
  function StoredValue(data: map<string, Value>, key: string, default: Value): Value {
    if key !in data || data[key] == VNone then default
    else if Decode(data[key]).None? then default
    else Decode(data[key]).value
  }

  /** What set(key, v) reads back as, and what it leaves alone. */
  lemma StoredAfterSet(data: map<string, Value>, key: string, v: Value, other: string, default: Value)
    ensures StoredValue(data[key := VHex(v)], key, default) == v
    ensures other != key ==> StoredValue(data[key := VHex(v)], other, default) == StoredValue(data, other, default)
    ensures key !in data ==> StoredValue(data, key, default) == default
  {
  }

  /** DataStorage: values kept encoded in the FSM data under their key. */
  class DataStorage {
    const fsm: FsmContext

    constructor (fsm: FsmContext)
      ensures this.fsm == fsm
    {
      this.fsm := fsm;
    }

    /** set(key, data): one write of the encoded value. */
    method Set(key: string, v: Value)
      modifies fsm
      ensures fsm.data == old(fsm.data)[key := VHex(v)] && fsm.state == old(fsm.state)
      ensures fsm.writes == old(fsm.writes) + 1
      ensures StoredValue(fsm.data, key, VNone) == v
    {
      fsm.UpdateData(map[key := VHex(v)]);
      assert fsm.data == old(fsm.data)[key := VHex(v)];
    }

    /** get(key, default). */
    method Get(key: string, default: Value) returns (v: Value)
      ensures v == StoredValue(fsm.data, key, default)
    {
      var hexData := if key in fsm.data then fsm.data[key] else VNone;
      if hexData == VNone {
        return default;
      }
      var decoded := Decode(hexData);
      if decoded.None? {
        return default;
      }
      v := decoded.value;
    }

    /** delete(key): drops only that key, and writes back only when it was there. */
    method Delete(key: string)
      modifies fsm
      ensures fsm.data == old(fsm.data) - {key} && fsm.state == old(fsm.state)
      ensures fsm.writes == old(fsm.writes) + (if key in old(fsm.data) then 1 else 0)
    {
      var stateData := fsm.data;
      if key in stateData {
        stateData := stateData - {key};
        fsm.SetData(stateData);
      } else {
        assert fsm.data - {key} == fsm.data;
      }
    }
  }

  // ---------------------------------------------------------------------
  // validate_url: the leftmost match of https?://\S+|www\.\S+
  // ---------------------------------------------------------------------

  /** Length of the prefix the pattern's alternatives accept at i, 0 if none. */
  function PrefixAt(s: string, i: nat): nat
    requires i <= |s|
  {
    if StartsWith(s[i..], "https://") then 8
    else if StartsWith(s[i..], "http://") then 7
    else if StartsWith(s[i..], "www.") then 4
    else 0
  }

  /** The match starting at i: a prefix, then the longest non-empty run of non-whitespace. */
  function UrlAt(s: string, i: nat): Option<string>
    requires i <= |s|
  {
    var p := PrefixAt(s, i);
    if p > 0 && i + p < |s| && !IsSpace(s[i + p]) then Some(s[i..i + p + TokenEnd(s[i + p..])])
    else None
  }

  /** The position of the leftmost match at or after i, |s| if there is none. */
  function UrlStart(s: string, i: nat): (k: nat)
    requires i <= |s|
    ensures i <= k <= |s|
    decreases |s| - i
  {
    if i == |s| || UrlAt(s, i).Some? then i else UrlStart(s, i + 1)
  }

  /** validate_url. */
  function ValidateUrl(s: string): Option<string> {
    var k := UrlStart(s, 0);
    if k < |s| then UrlAt(s, k) else None
  }

  /**
   * A match of the pattern, read directly: s[i..j] starts with "http://",
   * "https://" or "www." and has something after it, contains no
   * whitespace, and stops only at whitespace or the end.
   */
  predicate UrlMatch(s: string, i: nat, j: nat) {
    i < j <= |s| && NoSpace(s[i..j]) && (j == |s| || IsSpace(s[j]))
    && ((StartsWith(s[i..j], "http://") && j - i > 7)
        || (StartsWith(s[i..j], "https://") && j - i > 8)
        || (StartsWith(s[i..j], "www.") && j - i > 4))
  }

  /** The three prefixes hold no whitespace. */
  lemma PrefixesNoSpace()
    ensures NoSpace("https://") && NoSpace("http://") && NoSpace("www.")
  {
    forall k | 0 <= k < 8 ensures !IsSpace("https://"[k]) {
      assert "https://"[k] in {'h', 't', 'p', 's', ':', '/'};
    }
    forall k | 0 <= k < 7 ensures !IsSpace("http://"[k]) {
      assert "http://"[k] in {'h', 't', 'p', ':', '/'};
    }
    forall k | 0 <= k < 4 ensures !IsSpace("www."[k]) {
      assert "www."[k] in {'w', '.'};
    }
  }

  lemma UrlAtShape(s: string, i: nat)
    requires i <= |s|
    ensures UrlAt(s, i).Some? ==>
      (i + |UrlAt(s, i).value| <= |s| && UrlAt(s, i).value == s[i..i + |UrlAt(s, i).value|]
       && UrlMatch(s, i, i + |UrlAt(s, i).value|))
  {
    var p := PrefixAt(s, i);
    if p > 0 && i + p < |s| && !IsSpace(s[i + p]) {
      var rest := s[i + p..];
      var e := TokenEnd(rest);
      var j := i + p + e;
      assert e > 0;
      PrefixesNoSpace();
      assert NoSpace(s[i..][..p]);
      forall k | 0 <= k < j - i ensures !IsSpace(s[i..j][k]) {
        if k < p {
          assert s[i..j][k] == s[i..][..p][k];
        } else {
          assert s[i..j][k] == rest[k - p] == rest[..e][k - p];
        }
      }
      if j < |s| {
        assert s[j] == rest[e];
      }
      assert s[i..j][..p] == s[i..][..p];
    }
  }

  /** The prefix the pattern reads at the start of a direct match is shorter than the match. */
  lemma MatchPrefix(s: string, i: nat, j: nat)
    requires i <= |s| && UrlMatch(s, i, j)
    ensures 0 < PrefixAt(s, i) < j - i
  {
    var u := s[i..j];
    assert s[i..][..|u|] == u;
    if StartsWith(u, "https://") {
      assert u[..8] == s[i..][..8];
      assert u[4] == 's' && u[0] == 'h';
      assert !StartsWith(u, "http://") by { assert u[..7][4] == u[4]; }
    } else if StartsWith(u, "http://") {
      assert u[..7] == s[i..][..7];
      assert s[i..][4] == u[4] == ':';
    } else {
      assert u[..4] == s[i..][..4];
      assert s[i..][0] == u[0] == 'w';
    }
  }

  /** A direct match at i is exactly what the pattern finds at i. */
  lemma UrlMatchFound(s: string, i: nat, j: nat)
    requires i <= |s| && UrlMatch(s, i, j)
    ensures UrlAt(s, i) == Some(s[i..j])
  {
    MatchPrefix(s, i, j);
    var u := s[i..j];
    var p := PrefixAt(s, i);
    assert s[i + p] == u[p];
    TokenAfterPrefix(s, i, j, p);
  }

  /** After the prefix, the run of non-whitespace reaches exactly to the end of the match. */
  lemma TokenAfterPrefix(s: string, i: nat, j: nat, p: nat)
    requires i + p <= j <= |s| && NoSpace(s[i..j]) && (j == |s| || IsSpace(s[j]))
    ensures TokenEnd(s[i + p..]) == j - i - p
  {
    var rest := s[i + p..];
    var n := j - i - p;
    assert forall k :: 0 <= k < n ==> rest[..n][k] == s[i..j][p + k];
    if j < |s| {
      assert rest[n] == s[j];
    }
    TokenEndAt(rest, n);
  }

  /** The end of the leading run of non-whitespace is the first whitespace. */
  lemma {:induction false} TokenEndAt(s: string, n: nat)
    requires n <= |s| && NoSpace(s[..n]) && (n == |s| || IsSpace(s[n]))
    ensures TokenEnd(s) == n
  {
    if n > 0 {
      assert !IsSpace(s[..n][0]);
      assert s[1..][..n - 1] == s[..n][1..];
      TokenEndAt(s[1..], n - 1);
    }
  }

  lemma {:induction false} UrlStartSpec(s: string, i: nat)
    requires i <= |s|
    ensures forall k :: i <= k < UrlStart(s, i) ==> UrlAt(s, k).None?
    ensures UrlStart(s, i) < |s| ==> UrlAt(s, UrlStart(s, i)).Some?
    decreases |s| - i
  {
    if i < |s| && UrlAt(s, i).None? {
      UrlStartSpec(s, i + 1);
      forall k | i <= k < UrlStart(s, i) ensures UrlAt(s, k).None? {
        if k > i {
          assert i + 1 <= k < UrlStart(s, i + 1);
        }
      }
    }
  }

  /** No match of the pattern starts before position i. */
  predicate NoMatchUpTo(s: string, i: nat) {
    forall k: nat, j: nat :: k < i && k < j <= |s| ==> !UrlMatch(s, k, j)
  }

  /** No match starts before the position UrlStart stops at. */
  lemma NoMatchBefore(s: string)
    ensures NoMatchUpTo(s, UrlStart(s, 0))
  {
    UrlStartSpec(s, 0);
    forall k: nat, j: nat | k < UrlStart(s, 0) && k < j <= |s|
      ensures !UrlMatch(s, k, j)
    {
      if UrlMatch(s, k, j) {
        UrlMatchFound(s, k, j);
      }
    }
  }

  /** validate_url gives None exactly when the text holds no match. */
  lemma ValidateUrlNone(s: string)
    ensures ValidateUrl(s).None? <==> forall i, j :: 0 <= i < j <= |s| ==> !UrlMatch(s, i, j)
  {
    UrlStartSpec(s, 0);
    var start := UrlStart(s, 0);
    if start < |s| {
      UrlAtShape(s, start);
    } else {
      NoMatchBefore(s);
    }
  }

  /**
   * Otherwise it gives the match that starts leftmost: a whitespace-free
   * piece of the text that begins with one of the prefixes and runs to the
   * next whitespace or the end.
   */
  lemma ValidateUrlLeftmost(s: string)
    requires ValidateUrl(s).Some?
    ensures exists i: nat, j: nat ::
      UrlMatch(s, i, j) && ValidateUrl(s).value == s[i..j] && NoMatchUpTo(s, i)
  {
    NoMatchBefore(s);
    var start := UrlStart(s, 0);
    UrlAtShape(s, start);
    var u := ValidateUrl(s).value;
    var j := start + |u|;
    assert UrlMatch(s, start, j) && u == s[start..j];
  }

  // ---------------------------------------------------------------------
  // validate_datetime: datetime.strptime(text.strip(), "%Y-%m-%d %H:%M")
  // ---------------------------------------------------------------------

  predicate AllDigits(s: string) {
    forall i :: 0 <= i < |s| ==> IsDigit(s[i])
  }

  /** The length of the run of ASCII digits that s starts with. */
  function LeadingDigits(s: string): (n: nat)
    ensures n <= |s| && AllDigits(s[..n]) && (n < |s| ==> !IsDigit(s[n]))
  {
    if |s| == 0 || !IsDigit(s[0]) then 0
    else
      var k := LeadingDigits(s[1..]);
      assert s[..k + 1] == [s[0]] + s[1..][..k];
      k + 1
  }

  /** The length of the run of whitespace that s starts with. */
  function LeadingSpaces(s: string): (n: nat)
    ensures n <= |s| && AllSpace(s[..n]) && (n < |s| ==> !IsSpace(s[n]))
  {
    if |s| == 0 || !IsSpace(s[0]) then 0
    else
      var k := LeadingSpaces(s[1..]);
      assert s[..k + 1] == [s[0]] + s[1..][..k];
      k + 1
  }

  /**
   * One of the directives %m, %H, %M (and %d's digit forms): a run of one or
   * two digits at the head of s whose value lies in lo..hi; the value and
   * what follows the run. Every alternative of the directive's pattern is a
   * one- or two-digit number in that range, and each is followed by a
   * non-digit or the end, so the run must be taken whole.
   */
  function NumberField(s: string, lo: nat, hi: nat): (r: Option<(nat, string)>)
    ensures r.Some? ==> lo <= r.value.0 <= hi && |r.value.1| < |s|
  {
    var n := LeadingDigits(s);
    if 1 <= n <= 2 && lo <= DigitsValue(s[..n]) <= hi then Some((DigitsValue(s[..n]), s[n..]))
    else None
  }

  /** %d: a day 1..31 as one or two digits, or a space and one digit 1..9. */
  function DayField(s: string): (r: Option<(nat, string)>)
    ensures r.Some? ==> 1 <= r.value.0 <= 31
  {
    if |s| > 0 && s[0] == ' ' then
      if |s| >= 2 && '1' <= s[1] <= '9' && (|s| == 2 || !IsDigit(s[2])) then
        Some(((s[1] as int - '0' as int) as nat, s[2..]))
      else None
    else NumberField(s, 1, 31)
  }

  predicate LeapYear(y: int) {
    y % 4 == 0 && (y % 100 != 0 || y % 400 == 0)
  }

  function DaysInMonth(y: int, m: int): nat {
    if m == 2 then (if LeapYear(y) then 29 else 28)
    else if m == 4 || m == 6 || m == 9 || m == 11 then 30
    else 31
  }

  /** A naive wall-clock time on a real calendar day, to the minute. */
  predicate ValidStamp(d: DateTime) {
    1 <= d.year <= 9999 && 1 <= d.month <= 12 && 1 <= d.day <= DaysInMonth(d.year, d.month)
    && 0 <= d.hour <= 23 && 0 <= d.minute <= 59 && d.second == 0 && d.microsecond == 0
    && d.utcOffset.None?
  }

  function Pow10(n: nat): nat {
    if n == 0 then 1 else 10 * Pow10(n - 1)
  }

  lemma {:induction false} DigitsBound(s: string)
    requires AllDigits(s)
    ensures DigitsValue(s) < Pow10(|s|)
  {
    if |s| > 0 {
      DigitsBound(s[..|s| - 1]);
    }
  }

  /** The tail of the format, "\\s+%H:%M", which must reach the end of the text. */
  function ParseClock(r: string): (c: Option<(nat, nat)>)
    ensures c.Some? ==> c.value.0 <= 23 && c.value.1 <= 59
  {
    var w := LeadingSpaces(r);
    if w == 0 then None
    else match NumberField(r[w..], 0, 23)
      case None => None
      case Some((hour, r3)) =>
        if r3 == [] || r3[0] != ':' then None
        else match NumberField(r3[1..], 0, 59)
          case None => None
          case Some((minute, r4)) => if r4 != [] then None else Some((hour, minute))
  }

  /** strptime on the stripped text. */
  function ParseStamp(t: string): (r: Option<DateTime>)
    ensures r.Some? ==> ValidStamp(r.value)
  {
    if |t| < 5 || !AllDigits(t[..4]) || t[4] != '-' then None
    else
      var year := DigitsValue(t[..4]);
      DigitsBound(t[..4]);
      assert Pow10(4) == 10000;
      match NumberField(t[5..], 1, 12)
      case None => None
      case Some((month, r1)) =>
        if r1 == [] || r1[0] != '-' then None
        else match DayField(r1[1..])
          case None => None
          case Some((day, r2)) =>
            match ParseClock(r2)
            case None => None
            case Some((hour, minute)) =>
              // datetime rejects year 0 and a day past the end of the month
              if year == 0 || day > DaysInMonth(year, month) then None
              else Some(DateTime(year, month, day, hour, minute, 0, 0, None))
  }

  /**
   * validate_datetime: a ValueError from strptime becomes None; whatever it
   * accepts is a real date and time.
   */
  function ValidateDatetime(s: string): (r: Option<DateTime>)
    ensures r.Some? ==> ValidStamp(r.value)
  {
    ParseStamp(Strip(s))
  }

  /** The zero-padded fields strftime writes. */
  function Pad2(n: nat): string
    requires n < 100
  {
    [DigitChar(n / 10), DigitChar(n % 10)]
  }

  function Pad4(n: nat): string
    requires n < 10000
  {
    [DigitChar(n / 10 / 10 / 10), DigitChar(n / 10 / 10 % 10), DigitChar(n / 10 % 10), DigitChar(n % 10)]
  }

  /** The fields laid out as "YYYY-MM-DD HH:MM". */
  function Stamp(year: nat, month: nat, day: nat, hour: nat, minute: nat): string
    requires year < 10000 && month < 100 && day < 100 && hour < 100 && minute < 100
  {
    Pad4(year) + "-" + (Pad2(month) + ("-" + (Pad2(day) + Clock(hour, minute))))
  }

  function Clock(hour: nat, minute: nat): string
    requires hour < 100 && minute < 100
  {
    " " + (Pad2(hour) + (":" + Pad2(minute)))
  }

  /** n itself when it lies in 0..m-1, as a datetime's fields always do; else n mod m. */
  function InRange(n: int, m: nat): (r: nat)
    requires m > 0
    ensures r < m
  {
    if 0 <= n < m then n else n % m
  }

  /**
   * strftime("%Y-%m-%d %H:%M"). A datetime's fields are always in range, so
   * InRange only keeps the function total.
   */
  function MinuteText(d: DateTime): string {
    Stamp(InRange(d.year, 10000), InRange(d.month, 100), InRange(d.day, 100), InRange(d.hour, 100),
          InRange(d.minute, 100))
  }

  /** Appending a digit to a numeral: the value times ten plus that digit. */
  lemma DigitsAppend(p: string, d: nat)
    requires AllDigits(p) && d < 10
    ensures AllDigits(p + [DigitChar(d)]) && DigitsValue(p + [DigitChar(d)]) == DigitsValue(p) * 10 + d
  {
    var q := p + [DigitChar(d)];
    assert q[..|q| - 1] == p;
  }

  lemma Pad2Value(n: nat)
    requires n < 100
    ensures AllDigits(Pad2(n)) && DigitsValue(Pad2(n)) == n
  {
    DigitsAppend([], n / 10);
    assert [] + [DigitChar(n / 10)] == [DigitChar(n / 10)];
    DigitsAppend([DigitChar(n / 10)], n % 10);
  }

  lemma Pad4Value(m: nat)
    requires m < 10000
    ensures AllDigits(Pad4(m)) && DigitsValue(Pad4(m)) == m
  {
    var p1 := [DigitChar(m / 10 / 10 / 10)];
    DigitsAppend([], m / 10 / 10 / 10);
    assert [] + p1 == p1;
    var p2 := p1 + [DigitChar(m / 10 / 10 % 10)];
    DigitsAppend(p1, m / 10 / 10 % 10);
    var p3 := p2 + [DigitChar(m / 10 % 10)];
    DigitsAppend(p2, m / 10 % 10);
    DigitsAppend(p3, m % 10);
    assert p3 + [DigitChar(m % 10)] == Pad4(m);
  }

  /** A two-digit field followed by a non-digit reads back as its value. */
  lemma NumberFieldPad(n: nat, rest: string, lo: nat, hi: nat)
    requires lo <= n <= hi && n < 100 && (rest == [] || !IsDigit(rest[0]))
    ensures NumberField(Pad2(n) + rest, lo, hi) == Some((n, rest))
  {
    var s := Pad2(n) + rest;
    Pad2Value(n);
    assert s[..2] == Pad2(n);
    assert LeadingDigits(s) == 2 by {
      assert s[1..][1..] == rest;
      assert s[1..][..1] == [s[1]];
    }
    assert s[2..] == rest;
  }

  lemma ClockFormatted(hour: nat, minute: nat)
    requires hour <= 23 && minute <= 59
    ensures ParseClock(Clock(hour, minute)) == Some((hour, minute))
  {
    var r4 := Pad2(minute);
    var r3 := ":" + r4;
    var r := Clock(hour, minute);
    Pad2Value(hour);
    assert LeadingSpaces(r) == 1 by {
      assert r[1..][0] == Pad2(hour)[0];
    }
    assert r[1..] == Pad2(hour) + r3;
    NumberFieldPad(hour, r3, 0, 23);
    assert r3[1..] == r4 + [];
    NumberFieldPad(minute, [], 0, 59);
    assert NumberField(r[1..], 0, 23) == Some((hour, r3));
    assert NumberField(r3[1..], 0, 59) == Some((minute, []));
  }

  /** The steps of ParseStamp, each taken successfully, give the time they read. */
  lemma ParseStampSteps(t: string, r1: string, r2: string, year: nat, month: nat, day: nat, hour: nat, minute: nat)
    requires |t| >= 5 && AllDigits(t[..4]) && t[4] == '-' && DigitsValue(t[..4]) == year
    requires NumberField(t[5..], 1, 12) == Some((month, r1)) && r1 != [] && r1[0] == '-'
    requires DayField(r1[1..]) == Some((day, r2)) && ParseClock(r2) == Some((hour, minute))
    requires year != 0 && day <= DaysInMonth(year, month)
    ensures ParseStamp(t) == Some(DateTime(year, month, day, hour, minute, 0, 0, None))
  {
  }

  /** The padded text of a valid time, parsed. */
  lemma ParseFormatted(d: DateTime)
    requires ValidStamp(d) && d.year >= 1000
    ensures ParseStamp(Stamp(d.year, d.month, d.day, d.hour, d.minute)) == Some(d)
  {
    var r2 := Clock(d.hour, d.minute);
    var r1 := "-" + (Pad2(d.day) + r2);
    var t := Stamp(d.year, d.month, d.day, d.hour, d.minute);
    Pad4Value(d.year);
    assert t[..4] == Pad4(d.year);
    assert t[5..] == Pad2(d.month) + r1;
    NumberFieldPad(d.month, r1, 1, 12);
    assert r1[1..] == Pad2(d.day) + r2;
    NumberFieldPad(d.day, r2, 1, 31);
    assert DayField(r1[1..]) == Some((d.day as nat, r2)) by {
      assert r1[1..][0] == DigitChar(d.day / 10);
    }
    ClockFormatted(d.hour, d.minute);
    ParseStampSteps(t, r1, r2, d.year, d.month, d.day, d.hour, d.minute);
  }

  /** The padded text of a time starts and ends with a digit, so strip() keeps it. */
  lemma FormattedStripped(d: DateTime)
    requires ValidStamp(d)
    ensures Strip(MinuteText(d)) == MinuteText(d)
  {
    var t := MinuteText(d);
    assert t == Stamp(d.year, d.month, d.day, d.hour, d.minute);
    assert t[0] == Pad4(d.year)[0];
    assert t[|t| - 1] == Pad2(d.minute)[1];
    StripKeeps(t);
  }

  /**
   * The text strftime("%Y-%m-%d %H:%M") writes for a time with a
   * four-digit year is read back by validate_datetime as that very time.
   */
  lemma ValidateFormatted(d: DateTime)
    requires ValidStamp(d) && d.year >= 1000
    ensures ValidateDatetime(MinuteText(d)) == Some(d)
  {
    FormattedStripped(d);
    assert MinuteText(d) == Stamp(d.year, d.month, d.day, d.hour, d.minute);
    ParseFormatted(d);
  }

  // ---------------------------------------------------------------------
  // send_message_copy, delete_message_safe, delete_message_by_id
  // ---------------------------------------------------------------------

  /** What one Bot API call did. */
  datatype ApiOutcome =
    | ApiOk
    | ApiRetryAfter(seconds: nat)   // TelegramRetryAfter
    | ApiBadRequest                 // TelegramBadRequest
    | ApiError                      // any other exception

  /** The result of send_message_copy and the sleeps it took before it. */
  datatype CopyRun = CopyRun(sent: Option<bool>, sleeps: seq<nat>)

  /**
   * send_message_copy, given the outcome of each successive attempt: a
   * flood-wait sleeps and tries again, without limit; a bad request or any
   * other error gives False. `sent` is None when the outcomes run out while
   * the calls are still being told to wait, the case where the original
   * keeps retrying.
   */
  function SendMessageCopy(outcomes: seq<ApiOutcome>): CopyRun {
    if outcomes == [] then CopyRun(None, [])
    else match outcomes[0]
      case ApiOk => CopyRun(Some(true), [])
      case ApiRetryAfter(n) =>
        var rest := SendMessageCopy(outcomes[1..]);
        CopyRun(rest.sent, [n] + rest.sleeps)
      case _ => CopyRun(Some(false), [])
  }

  /** The position of the first attempt that is not told to wait, |outcomes| if none. */
  function FirstSettled(outcomes: seq<ApiOutcome>): (k: nat)
    ensures k <= |outcomes|
    ensures forall i :: 0 <= i < k ==> outcomes[i].ApiRetryAfter?
    ensures k < |outcomes| ==> !outcomes[k].ApiRetryAfter?
  {
    if outcomes == [] || !outcomes[0].ApiRetryAfter? then 0 else 1 + FirstSettled(outcomes[1..])
  }

  function RetrySeconds(outcomes: seq<ApiOutcome>): (r: seq<nat>)
    requires forall i :: 0 <= i < |outcomes| ==> outcomes[i].ApiRetryAfter?
    ensures |r| == |outcomes|
  {
    if outcomes == [] then [] else [outcomes[0].seconds] + RetrySeconds(outcomes[1..])
  }

  /**
   * send_message_copy waits out every flood-wait before the first attempt
   * that settles, in order, and returns True exactly when that attempt
   * went through; it only keeps going when no attempt settles.
   */
  lemma {:induction false} SendMessageCopySpec(outcomes: seq<ApiOutcome>)
    ensures var k := FirstSettled(outcomes);
      && SendMessageCopy(outcomes).sleeps == RetrySeconds(outcomes[..k])
      && (SendMessageCopy(outcomes).sent.None? <==> k == |outcomes|)
      && (SendMessageCopy(outcomes).sent == Some(true) <==> k < |outcomes| && outcomes[k] == ApiOk)
  {
    if outcomes != [] && outcomes[0].ApiRetryAfter? {
      SendMessageCopySpec(outcomes[1..]);
      var k := FirstSettled(outcomes);
      assert outcomes[..k] == [outcomes[0]] + outcomes[1..][..k - 1];
    }
  }

  /**
   * A call under `with suppress(TelegramBadRequest)` that returns True
   * after it, as delete_message_safe and delete_message_by_id do: a bad
   * request is swallowed and gives False, success gives True, any other
   * exception (None here) goes up to the caller.
   */
  function Suppressed(outcome: ApiOutcome): (r: Option<bool>)
    ensures r == Some(true) <==> outcome == ApiOk
    ensures r == Some(false) <==> outcome == ApiBadRequest
  {
    match outcome
    case ApiOk => Some(true)
    case ApiBadRequest => Some(false)
    case _ => None
  }
}
