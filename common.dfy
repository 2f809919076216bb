/*
 * Shared vocabulary for the whole model: optional values, the handful of
 * Python string operations the bot relies on (strip, split, split with
 * maxsplit=1, lower, startswith, int(), str.format with keyword fields),
 * and the loosely typed values that travel through dicts.
 */
module Common {

  datatype Option<T> = None | Some(value: T)

  /** A calendar date and wall-clock time, with an optional UTC offset in minutes. */
  datatype DateTime = DateTime(
    year: int, month: int, day: int, hour: int, minute: int, second: int,
    microsecond: int, utcOffset: Option<int>)

  /** A value as it sits in a Python dict (FSM data, to_dict output, kwargs). */
  datatype Value =
    | VNone
    | VBool(b: bool)
    | VInt(i: int)
    | VStr(s: string)
    | VEnum(member: string)      // a str-valued Enum member, carrying its value
    | VHex(payload: Value)       // the hex text of a pickled payload
    | VTime(when: DateTime)      // a datetime object
    | VIso(at: DateTime)         // the text datetime.isoformat() gives for `at`
    | VList(items: seq<Value>)
    | VDict(entries: map<string, Value>)

  /** Python truthiness (`if value:`); objects such as datetimes are always true. */
  predicate Truthy(v: Value) {
    match v
    case VNone => false
    case VBool(b) => b
    case VInt(i) => i != 0
    case VStr(s) => s != ""
    case VList(items) => items != []
    case VDict(entries) => entries != map[]
    case _ => true
  }

  // ---------------------------------------------------------------------
  // Whitespace and strip
  // ---------------------------------------------------------------------

  /** Python's str.isspace() for a single character. */
  predicate IsSpace(c: char) {
    var n := c as int;
    (n <= 32 && (n == 32 || 9 <= n <= 13 || 28 <= n <= 31))
    || (0x85 <= n && (n == 0x85 || n == 0xA0 || n == 0x1680 || 0x2000 <= n <= 0x200A || n == 0x2028
                      || n == 0x2029 || n == 0x202F || n == 0x205F || n == 0x3000))
  }

  predicate AllSpace(s: string) {
    forall i :: 0 <= i < |s| ==> IsSpace(s[i])
  }

  predicate NoSpace(s: string) {
    forall i :: 0 <= i < |s| ==> !IsSpace(s[i])
  }

  /** str.lstrip(): drops the leading whitespace, keeps everything after it. */
  function StripLeft(s: string): string {
    if |s| > 0 && IsSpace(s[0]) then StripLeft(s[1..]) else s
  }

  /** str.rstrip(): drops the trailing whitespace, keeps everything before it. */
  function StripRight(s: string): string {
    if |s| > 0 && IsSpace(s[|s| - 1]) then StripRight(s[..|s| - 1]) else s
  }

  /** str.strip(). */
  function Strip(s: string): string {
    StripRight(StripLeft(s))
  }

  /**
   * lstrip() leaves a suffix of the text whose dropped prefix is all
   * whitespace and which does not start with whitespace; it is empty exactly
   * when the text is all whitespace.
   */
  lemma {:induction false} StripLeftSpec(s: string)
    ensures var r := StripLeft(s);
      && |r| <= |s| && r == s[|s| - |r|..]
      && AllSpace(s[..|s| - |r|])
      && (r == [] || !IsSpace(r[0]))
      && (r == [] <==> AllSpace(s))
  {
    if |s| > 0 && IsSpace(s[0]) {
      StripLeftSpec(s[1..]);
      var r := StripLeft(s[1..]);
      SpaceThenSuffix(s, r);
      if AllSpace(s[1..]) {
        assert forall i | 0 <= i < |s| :: IsSpace(s[i]) by {
          forall i | 0 < i < |s| ensures IsSpace(s[i]) {
            assert s[i] == s[1..][i - 1];
          }
        }
      }
    } else {
      assert s[..0] == [];
    }
  }

  /** A suffix of s[1..] after spaces is a suffix of s after spaces, when s[0] is one too. */
  lemma SpaceThenSuffix(s: string, r: string)
    requires |s| > 0 && IsSpace(s[0])
    requires |r| <= |s| - 1 && r == s[1..][|s| - 1 - |r|..] && AllSpace(s[1..][..|s| - 1 - |r|])
    ensures r == s[|s| - |r|..] && AllSpace(s[..|s| - |r|])
  {
    var n := |s| - |r|;
    forall i | 0 <= i < n ensures IsSpace(s[..n][i]) {
      if i > 0 {
        assert s[..n][i] == s[1..][..n - 1][i - 1];
      }
    }
  }

  /**
   * rstrip() leaves a prefix of the text whose dropped suffix is all
   * whitespace and which does not end with whitespace; it is empty exactly
   * when the text is all whitespace.
   */
  lemma {:induction false} StripRightSpec(s: string)
    ensures var r := StripRight(s);
      && |r| <= |s| && r == s[..|r|]
      && AllSpace(s[|r|..])
      && (r == [] || !IsSpace(r[|r| - 1]))
      && (r == [] <==> AllSpace(s))
  {
    if |s| > 0 && IsSpace(s[|s| - 1]) {
      var t := s[..|s| - 1];
      StripRightSpec(t);
      var r := StripRight(t);
      forall i | |r| <= i < |s| ensures IsSpace(s[i]) {
        if i < |s| - 1 {
          assert s[i] == t[|r|..][i - |r|];
        }
      }
      assert forall k | 0 <= k < |s[|r|..]| :: IsSpace(s[|r|..][k]) by {
        forall k | 0 <= k < |s[|r|..]| ensures IsSpace(s[|r|..][k]) {
          assert s[|r|..][k] == s[|r| + k];
        }
      }
      if AllSpace(t) {
        forall i | 0 <= i < |s| ensures IsSpace(s[i]) {
          if i < |s| - 1 {
            assert s[i] == t[i];
          }
        }
      }
    } else {
      assert s[|s|..] == [];
      assert s[..|s|] == s;
    }
  }

  /** strip() is empty exactly for all-whitespace text, otherwise trimmed on both ends. */
  lemma StripSpec(s: string)
    ensures var r := Strip(s);
      && |r| <= |s|
      && (r == [] <==> AllSpace(s))
      && (r != [] ==> !IsSpace(r[0]) && !IsSpace(r[|r| - 1]))
  {
    var l := StripLeft(s);
    StripLeftSpec(s);
    StripRightSpec(l);
    var r := StripRight(l);
    if r != [] {
      assert r[0] == l[0];
    }
  }

  // ---------------------------------------------------------------------
  // str.split(sep) for a one-character separator, and "sep".join
  // ---------------------------------------------------------------------

  /** Position of the first `c` in `s`, or |s| when there is none. */
  function IndexOf(s: string, c: char): (i: nat)
    ensures i <= |s|
    ensures c !in s[..i]
    ensures i < |s| ==> s[i] == c
  {
    if |s| == 0 || s[0] == c then 0
    else
      var k := IndexOf(s[1..], c);
      assert s[..k + 1] == [s[0]] + s[1..][..k];
      k + 1
  }

  function Split(s: string, sep: char): (parts: seq<string>)
    ensures |parts| >= 1
    ensures forall k :: 0 <= k < |parts| ==> sep !in parts[k]
    decreases |s|
  {
    var i := IndexOf(s, sep);
    if i == |s| then
      assert s[..i] == s;
      [s]
    else [s[..i]] + Split(s[i + 1..], sep)
  }

  function Join(parts: seq<string>, sep: char): string {
    if |parts| == 0 then ""
    else if |parts| == 1 then parts[0]
    else parts[0] + [sep] + Join(parts[1..], sep)
  }

  /** Joining the pieces of a split gives back the text. */
  lemma {:induction false} JoinSplit(s: string, sep: char)
    ensures Join(Split(s, sep), sep) == s
    decreases |s|
  {
    var i := IndexOf(s, sep);
    if i < |s| {
      var rest := Split(s[i + 1..], sep);
      var parts := [s[..i]] + rest;
      assert Split(s, sep) == parts;
      assert parts[0] == s[..i] && parts[1..] == rest;
      assert Join(parts, sep) == s[..i] + [sep] + Join(rest, sep);
      JoinSplit(s[i + 1..], sep);
      assert s == s[..i] + [sep] + s[i + 1..];
    } else {
      assert s[..i] == s;
    }
  }

  lemma {:induction false} IndexOfConcat(a: string, c: char, b: string)
    requires c !in a
    ensures IndexOf(a + [c] + b, c) == |a|
  {
    if a != [] {
      assert (a + [c] + b)[1..] == a[1..] + [c] + b;
      IndexOfConcat(a[1..], c, b);
    }
  }

  lemma {:induction false} IndexOfAbsent(s: string, c: char)
    requires c !in s
    ensures IndexOf(s, c) == |s|
  {
    if s != [] {
      IndexOfAbsent(s[1..], c);
    }
  }

  /** Splitting joined pieces that do not contain the separator gives them back. */
  lemma {:induction false} SplitJoin(parts: seq<string>, sep: char)
    requires |parts| >= 1
    requires forall k :: 0 <= k < |parts| ==> sep !in parts[k]
    ensures Split(Join(parts, sep), sep) == parts
  {
    if |parts| == 1 {
      IndexOfAbsent(parts[0], sep);
    } else {
      var s := Join(parts, sep);
      var rest := Join(parts[1..], sep);
      IndexOfConcat(parts[0], sep, rest);
      assert s[..|parts[0]|] == parts[0];
      assert s[|parts[0]| + 1..] == rest;
      SplitJoin(parts[1..], sep);
    }
  }

  /** The first piece of a split is the text before the first separator, the second what follows up to the next. */
  lemma SplitHead(word: string, sep: char, rest: string)
    requires sep !in word
    ensures var parts := Split(word + [sep] + rest, sep);
      |parts| >= 2 && parts[0] == word && (sep !in rest ==> parts[1] == rest)
  {
    var s := word + [sep] + rest;
    IndexOfConcat(word, sep, rest);
    assert s[..|word|] == word;
    assert s[|word| + 1..] == rest;
    if sep !in rest {
      IndexOfAbsent(rest, sep);
    }
  }

  // ---------------------------------------------------------------------
  // str.split(maxsplit=1) on whitespace
  // ---------------------------------------------------------------------

  /** End of the leading run of non-whitespace characters. */
  function TokenEnd(s: string): (i: nat)
    ensures i <= |s|
    ensures NoSpace(s[..i])
    ensures i < |s| ==> IsSpace(s[i])
  {
    if |s| == 0 || IsSpace(s[0]) then 0
    else
      var k := TokenEnd(s[1..]);
      assert s[..k + 1] == [s[0]] + s[1..][..k];
      k + 1
  }

  /**
   * Python's s.split(maxsplit=1): the first whitespace-delimited word and,
   * when anything but whitespace follows it, the remainder with its leading
   * whitespace removed (its trailing whitespace is kept).
   */
  function SplitOnce(s: string): (r: seq<string>)
    ensures |r| <= 2
    ensures |r| == 0 <==> AllSpace(s)
    ensures |r| >= 1 ==> r[0] != [] && NoSpace(r[0])
    ensures |r| == 2 ==> r[1] != [] && !IsSpace(r[1][0])
  {
    var t := StripLeft(s);
    StripLeftSpec(s);
    if t == [] then []
    else
      var k := TokenEnd(t);
      var rest := StripLeft(t[k..]);
      StripLeftSpec(t[k..]);
      if rest == [] then [t[..k]] else [t[..k], rest]
  }

  /** The first word of a non-blank text, as SplitOnce returns it. */
  lemma {:induction false} SplitOnceWords(w: string, sep: string, rest: string)
    requires w != [] && NoSpace(w)
    requires sep != [] && AllSpace(sep)
    requires rest != [] && !IsSpace(rest[0])
    ensures SplitOnce(w + sep + rest) == [w, rest]
  {
    var s := w + sep + rest;
    assert s == w + (sep + rest);
    assert s[0] == w[0];
    TokenEndConcat(w, sep + rest);
    assert s[..|w|] == w;
    assert s[|w|..] == sep + rest;
    StripLeftSpaces(sep, rest);
  }

  lemma {:induction false} TokenEndConcat(w: string, tail: string)
    requires NoSpace(w)
    requires tail != [] && IsSpace(tail[0])
    ensures TokenEnd(w + tail) == |w|
  {
    if w != [] {
      assert (w + tail)[1..] == w[1..] + tail;
      TokenEndConcat(w[1..], tail);
    } else {
      assert w + tail == tail;
    }
  }

  lemma {:induction false} StripLeftSpaces(sep: string, rest: string)
    requires AllSpace(sep)
    requires rest == [] || !IsSpace(rest[0])
    ensures StripLeft(sep + rest) == rest
    decreases |sep|
  {
    if sep == [] {
      assert sep + rest == rest;
    } else {
      assert (sep + rest)[1..] == sep[1..] + rest;
      StripLeftSpaces(sep[1..], rest);
    }
  }

  // ---------------------------------------------------------------------
  // Case, prefixes, containment
  // ---------------------------------------------------------------------

  function LowerChar(c: char): char {
    if 'A' <= c <= 'Z' then (c as int + 32) as char else c
  }

  /** str.lower() restricted to ASCII letters. */
  function Lower(s: string): (r: string)
    ensures |r| == |s|
    ensures forall i :: 0 <= i < |s| ==> r[i] == LowerChar(s[i])
  {
    seq(|s|, i requires 0 <= i < |s| => LowerChar(s[i]))
  }

  /** Concatenation regrouped, as loop invariants over appended sequences need it. */
  lemma ConcatAssoc<T>(a: seq<T>, b: seq<T>, c: seq<T>)
    ensures a + b + c == a + (b + c)
  {
  }

  predicate StartsWith(s: string, prefix: string) {
    |prefix| <= |s| && s[..|prefix|] == prefix
  }

  predicate EndsWith(s: string, suffix: string) {
    |suffix| <= |s| && s[|s| - |suffix|..] == suffix
  }

  /** `sub in s` for strings. */
  predicate Contains(s: string, sub: string)
    decreases |s|
  {
    StartsWith(s, sub) || (|s| > 0 && Contains(s[1..], sub))
  }

  // ---------------------------------------------------------------------
  // Decimal digits, str(int) and int(str)
  // ---------------------------------------------------------------------

  predicate IsDigit(c: char) {
    '0' <= c <= '9'
  }

  /** str.isdigit() restricted to ASCII: non-empty and every character a digit. */
  predicate IsDigits(s: string) {
    |s| > 0 && forall i :: 0 <= i < |s| ==> IsDigit(s[i])
  }

  function DigitChar(d: nat): char
    requires d < 10
  {
    ('0' as int + d) as char
  }

  function DigitsValue(s: string): nat
    requires forall i :: 0 <= i < |s| ==> IsDigit(s[i])
  {
    if |s| == 0 then 0
    else
      assert IsDigit(s[|s| - 1]);
      DigitsValue(s[..|s| - 1]) * 10 + (s[|s| - 1] as int - '0' as int)
  }

  /** str(n) for a natural number. */
  function NatToString(n: nat): (s: string)
    ensures IsDigits(s)
    ensures |s| > 1 ==> s[0] != '0'
  {
    if n < 10 then [DigitChar(n)] else NatToString(n / 10) + [DigitChar(n % 10)]
  }

  lemma {:induction false} NatToStringValue(n: nat)
    ensures DigitsValue(NatToString(n)) == n
  {
    if n >= 10 {
      var s := NatToString(n);
      assert s[..|s| - 1] == NatToString(n / 10);
      NatToStringValue(n / 10);
    }
  }

  /** Different naturals print differently. */
  lemma NatToStringInjective(m: nat, n: nat)
    requires NatToString(m) == NatToString(n)
    ensures m == n
  {
    NatToStringValue(m);
    NatToStringValue(n);
  }

  /** str(i) for any integer. */
  function IntToString(i: int): (s: string)
    ensures |s| > 0
  {
    if i < 0 then "-" + NatToString(-i) else NatToString(i)
  }

  /** int(s) over ASCII text: surrounding whitespace, an optional sign, then digits. */
  function ParseInt(s: string): Option<int> {
    var t := Strip(s);
    if IsDigits(t) then Some(DigitsValue(t))
    else if |t| >= 2 && t[0] == '+' && IsDigits(t[1..]) then Some(DigitsValue(t[1..]))
    else if |t| >= 2 && t[0] == '-' && IsDigits(t[1..]) then Some(0 - DigitsValue(t[1..]))
    else None
  }

  /** Text that neither starts nor ends with whitespace is its own strip(). */
  lemma StripKeeps(s: string)
    requires |s| > 0 && !IsSpace(s[0]) && !IsSpace(s[|s| - 1])
    ensures Strip(s) == s
  {
    assert StripLeft(s) == s;
    assert StripRight(s) == s;
  }

  /** int(str(i)) == i: the callback payloads the bot prints parse back. */
  lemma IntToStringParses(i: int)
    ensures ParseInt(IntToString(i)) == Some(i)
  {
    var s := IntToString(i);
    if i < 0 {
      assert s == "-" + NatToString(-i);
      ParseMinusNat(-i);
    } else {
      assert s == NatToString(i);
      ParseNat(i);
    }
  }

  /** int(str(n)) == n for a natural number. */
  lemma ParseNat(n: nat)
    ensures ParseInt(NatToString(n)) == Some(n)
  {
    var t := NatToString(n);
    NatToStringValue(n);
    assert IsDigit(t[0]) && IsDigit(t[|t| - 1]);
    StripKeeps(t);
  }

  /** int("-" + str(n)) == -n. */
  lemma ParseMinusNat(n: nat)
    ensures ParseInt("-" + NatToString(n)) == Some(-(n as int))
  {
    var t := NatToString(n);
    NatToStringValue(n);
    var s := "-" + t;
    assert s[1..] == t && s[|s| - 1] == t[|t| - 1];
    assert IsDigit(t[|t| - 1]);
    StripKeeps(s);
    assert !IsDigit(s[0]);
  }

  // ---------------------------------------------------------------------
  // str.format(**kwargs) with plain named fields
  // ---------------------------------------------------------------------

  datatype FormatResult =
    | Formatted(text: string)
    | MissingKey(key: string)    // KeyError
    | Malformed                  // ValueError / IndexError

  /** A replacement field that names a keyword argument directly. */
  predicate PlainFieldName(name: string) {
    name != [] && !IsDigits(name)
    && forall i :: 0 <= i < |name| ==> name[i] !in {'.', '[', ']', ':', '!', '{'}
  }

  /**
   * template.format(**kwargs): "{{" and "}}" stand for braces, "{name}" for
   * kwargs[name]; evaluation is left to right and the first failure wins.
   */
  function Format(t: string, kwargs: map<string, string>): (r: FormatResult)
    ensures (forall i :: 0 <= i < |t| ==> t[i] != '{' && t[i] != '}') ==> r == Formatted(t)
    decreases |t|
  {
    if t == [] then Formatted([])
    else if t[0] == '{' then
      if |t| > 1 && t[1] == '{' then Prepend("{", Format(t[2..], kwargs))
      else
        var j := IndexOf(t[1..], '}');
        if j == |t| - 1 then Malformed
        else
          var name := t[1..1 + j];
          if !PlainFieldName(name) then Malformed
          else if name !in kwargs then MissingKey(name)
          else Prepend(kwargs[name], Format(t[j + 2..], kwargs))
    else if t[0] == '}' then
      if |t| > 1 && t[1] == '}' then Prepend("}", Format(t[2..], kwargs)) else Malformed
    else
      var r := Format(t[1..], kwargs);
      assert (forall i :: 0 <= i < |t| ==> t[i] != '{' && t[i] != '}') ==> r == Formatted(t[1..]);
      assert [t[0]] + t[1..] == t;
      Prepend([t[0]], r)
  }

  function Prepend(prefix: string, r: FormatResult): FormatResult {
    if r.Formatted? then Formatted(prefix + r.text) else r
  }

  /** A field whose name has a keyword argument is replaced by that argument, and brace-free text around it is kept. */
  lemma {:induction false} FormatField(before: string, name: string, after: string, kwargs: map<string, string>)
    requires PlainFieldName(name) && '}' !in name && name in kwargs
    requires forall i :: 0 <= i < |before| ==> before[i] != '{' && before[i] != '}'
    requires forall i :: 0 <= i < |after| ==> after[i] != '{' && after[i] != '}'
    ensures Format(before + ("{" + name + "}" + after), kwargs) == Formatted(before + (kwargs[name] + after))
    decreases |before|
  {
    var t, r := "{" + name + "}" + after, kwargs[name] + after;
    if before == [] {
      assert before + t == t && before + r == r;
      FormatFieldFirst(name, after, kwargs);
    } else {
      var c, tail := before[0], before[1..];
      FormatField(tail, name, after, kwargs);
      assert before == [c] + tail;
      ConcatAssoc([c], tail, t);
      ConcatAssoc([c], tail, r);
      FormatCons(c, tail + t, tail + r, kwargs);
    }
  }

  /** A brace-free character in front of a template is copied in front of its result. */
  lemma FormatCons(c: char, t: string, r: string, kwargs: map<string, string>)
    requires c != '{' && c != '}' && Format(t, kwargs) == Formatted(r)
    ensures Format([c] + t, kwargs) == Formatted([c] + r)
  {
    FormatPlainHead(c, t, kwargs);
  }

  lemma FormatPlainHead(c: char, rest: string, kwargs: map<string, string>)
    requires c != '{' && c != '}'
    ensures Format([c] + rest, kwargs) == Prepend([c], Format(rest, kwargs))
  {
    assert ([c] + rest)[1..] == rest;
  }

  lemma FormatFieldFirst(name: string, after: string, kwargs: map<string, string>)
    requires PlainFieldName(name) && '}' !in name && name in kwargs
    requires forall i :: 0 <= i < |after| ==> after[i] != '{' && after[i] != '}'
    ensures Format("{" + name + "}" + after, kwargs) == Formatted(kwargs[name] + after)
  {
    var t := "{" + name + "}" + after;
    assert t[1..] == name + ['}'] + after;
    assert t[1] == name[0] && name[0] != '{';
    IndexOfConcat(name, '}', after);
    assert t[1..1 + |name|] == name;
    assert t[|name| + 2..] == after;
    calc {
      Format(t, kwargs);
      { FormatFieldUnfold(t, |name|, kwargs); }
      Prepend(kwargs[name], Format(after, kwargs));
      { BraceFreeFormats(after, kwargs); }
      Prepend(kwargs[name], Formatted(after));
    }
  }

  lemma BraceFreeFormats(t: string, kwargs: map<string, string>)
    requires forall i :: 0 <= i < |t| ==> t[i] != '{' && t[i] != '}'
    ensures Format(t, kwargs) == Formatted(t)
  {
  }

  /** One step of Format at a replacement field that closes at t[j + 1]. */
  lemma FormatFieldUnfold(t: string, j: nat, kwargs: map<string, string>)
    requires |t| > 1 && t[0] == '{' && t[1] != '{'
    requires j < |t| - 1 && IndexOf(t[1..], '}') == j
    requires PlainFieldName(t[1..1 + j]) && t[1..1 + j] in kwargs
    ensures Format(t, kwargs) == Prepend(kwargs[t[1..1 + j]], Format(t[j + 2..], kwargs))
  {
  }

  /** A field whose name has no keyword argument is a KeyError. */
  lemma FormatMissingKey(name: string, kwargs: map<string, string>)
    requires PlainFieldName(name) && '}' !in name && name !in kwargs
    ensures Format("{" + name + "}", kwargs) == MissingKey(name)
  {
    var t := "{" + name + "}";
    assert t[1..] == name + "}";
    IndexOfConcat(name, '}', "");
    assert name + "}" == name + ['}'] + "";
    assert t[1..1 + |name|] == name;
  }
}
