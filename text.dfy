/**
 * Text operations of the Python runtime that the modelled code relies on:
 * `str.strip()`, ASCII lower-casing, `int(str)`, `float(str)` and the decimal
 * rendering of integers used by f-strings.
 */
module Text {
  import opened Wrappers

  /** Python's `str.isspace()` for a single character. */
  predicate IsSpace(c: char) {
    var n := c as int;
    (9 <= n <= 13) || (28 <= n <= 32) || n == 0x85 || n == 0xA0 || n == 0x1680
    || (0x2000 <= n <= 0x200A) || n == 0x2028 || n == 0x2029 || n == 0x202F
    || n == 0x205F || n == 0x3000
  }

  /** `s.lstrip()`: drop leading whitespace. */
  function TrimStart(s: string): (r: string)
    ensures |r| <= |s|
    ensures r == [] || !IsSpace(r[0])
  {
    if s != [] && IsSpace(s[0]) then TrimStart(s[1..]) else s
  }

  /** `lstrip()` drops exactly a run of leading whitespace: what is left is a suffix. */
  lemma {:induction false} TrimStartSuffix(s: string)
    ensures var r := TrimStart(s);
            r == s[|s| - |r|..] && forall k :: 0 <= k < |s| - |r| ==> IsSpace(s[k])
    decreases |s|
  {
    if s != [] && IsSpace(s[0]) {
      TrimStartSuffix(s[1..]);
      var r := TrimStart(s);
      assert forall k :: 1 <= k < |s| ==> s[k] == s[1..][k - 1];
      assert s[1..][|s| - 1 - |r|..] == s[|s| - |r|..];
    }
  }

  /** What `lstrip()` leaves is the suffix of `s` of its own length. */
  lemma {:induction false} TrimStartIsSuffix(s: string)
    ensures TrimStart(s) == s[|s| - |TrimStart(s)|..]
    decreases |s|
  {
    if s != [] && IsSpace(s[0]) {
      TrimStartIsSuffix(s[1..]);
      assert s[1..][|s| - 1 - |TrimStart(s)|..] == s[|s| - |TrimStart(s)|..];
    }
  }

  /** `s.rstrip()`: drop trailing whitespace. */
  function TrimEnd(s: string): (r: string)
    ensures |r| <= |s|
    ensures r == [] || !IsSpace(r[|r| - 1])
  {
    if s != [] && IsSpace(s[|s| - 1]) then TrimEnd(s[..|s| - 1]) else s
  }

  /** `rstrip()` drops exactly a run of trailing whitespace: what is left is a prefix. */
  lemma {:induction false} TrimEndPrefix(s: string)
    ensures var r := TrimEnd(s);
            r == s[..|r|] && forall k :: |r| <= k < |s| ==> IsSpace(s[k])
    decreases |s|
  {
    if s != [] && IsSpace(s[|s| - 1]) {
      TrimEndPrefix(s[..|s| - 1]);
      var r := TrimEnd(s);
      assert s[..|s| - 1][..|r|] == s[..|r|];
    }
  }

  /** What `rstrip()` leaves is the prefix of `s` of its own length. */
  lemma {:induction false} TrimEndIsPrefix(s: string)
    ensures TrimEnd(s) == s[..|TrimEnd(s)|]
    decreases |s|
  {
    if s != [] && IsSpace(s[|s| - 1]) {
      TrimEndIsPrefix(s[..|s| - 1]);
      assert s[..|s| - 1][..|TrimEnd(s)|] == s[..|TrimEnd(s)|];
    }
  }

  /** `s.strip()`: the longest infix of `s` that neither starts nor ends with whitespace. */
  function Strip(s: string): (r: string)
    ensures |r| <= |s|
    ensures r == [] || (!IsSpace(r[0]) && !IsSpace(r[|r| - 1]))
  {
    TrimEndIsPrefix(TrimStart(s));
    TrimEnd(TrimStart(s))
  }

  /** What `strip()` keeps is the slice of `s` that starts where `lstrip()` stops. */
  lemma StripIsSlice(s: string)
    ensures var r, i := Strip(s), |s| - |TrimStart(s)|;
            i + |r| <= |s| && r == s[i..i + |r|]
  {
    var t, r := TrimStart(s), Strip(s);
    TrimStartIsSuffix(s);
    TrimEndIsPrefix(t);
    var i := |s| - |t|;
    assert r == TrimEnd(t) == t[..|r|];
    assert t[..|r|] == s[i..i + |r|];
  }

  /** Only whitespace follows what `strip()` keeps. */
  lemma StripDropsTrailingSpace(s: string)
    ensures var r, i := Strip(s), |s| - |TrimStart(s)|;
            forall k :: i + |r| <= k < |s| ==> IsSpace(s[k])
  {
    var t := TrimStart(s);
    TrimStartSuffix(s);
    TrimEndPrefix(t);
    var i := |s| - |t|;
    forall k | i + |Strip(s)| <= k < |s|
      ensures IsSpace(s[k])
    {
      assert s[k] == t[k - i];
    }
  }

  /** `strip()` keeps an infix of `s` and drops only whitespace around it. */
  lemma StripInfix(s: string)
    ensures var r, i := Strip(s), |s| - |TrimStart(s)|;
            i + |r| <= |s| && r == s[i..i + |r|]
            && (forall k :: 0 <= k < i ==> IsSpace(s[k]))
            && (forall k :: i + |r| <= k < |s| ==> IsSpace(s[k]))
  {
    TrimStartSuffix(s);
    StripIsSlice(s);
    StripDropsTrailingSpace(s);
  }

  /** A string is blank when `strip()` leaves nothing: Python's `not s.strip()`. */
  predicate Blank(s: string) {
    Strip(s) == ""
  }

  lemma {:induction false} TrimStartKeeps(s: string)
    requires s == [] || !IsSpace(s[0])
    ensures TrimStart(s) == s
  {
  }

  lemma {:induction false} TrimEndKeeps(s: string)
    requires s == [] || !IsSpace(s[|s| - 1])
    ensures TrimEnd(s) == s
  {
  }

  /** Stripping twice is stripping once. */
  lemma StripIdempotent(s: string)
    ensures Strip(Strip(s)) == Strip(s)
  {
    var r := Strip(s);
    TrimStartKeeps(r);
    TrimEndKeeps(r);
  }

  /** A string is blank exactly when every character of it is whitespace. */
  lemma {:induction false} BlankIffAllSpace(s: string)
    ensures Blank(s) <==> forall k :: 0 <= k < |s| ==> IsSpace(s[k])
  {
    if forall k :: 0 <= k < |s| ==> IsSpace(s[k]) {
      AllSpaceTrimsAway(s);
    } else {
      StripInfix(s);
    }
  }

  lemma {:induction false} AllSpaceTrimsAway(s: string)
    requires forall k :: 0 <= k < |s| ==> IsSpace(s[k])
    ensures TrimStart(s) == []
  {
    if s != [] {
      AllSpaceTrimsAway(s[1..]);
    }
  }

  // ---------------------------------------------------------------------------
  // ASCII case folding

  function LowerChar(c: char): char {
    if 'A' <= c <= 'Z' then (c as int + 32) as char else c
  }

  /** ASCII lower-casing of every character. */
  function Lower(s: string): (r: string)
    ensures |r| == |s| && forall k :: 0 <= k < |s| ==> r[k] == LowerChar(s[k])
  {
    seq(|s|, k requires 0 <= k < |s| => LowerChar(s[k]))
  }

  /** Lower-casing does not move whitespace, so it commutes with `strip()`. */
  lemma LowerStripCommute(s: string)
    ensures Lower(Strip(s)) == Strip(Lower(s))
  {
    LowerTrimStart(s);
    LowerTrimEnd(TrimStart(s));
  }

  lemma LowerKeepsSpace(c: char)
    ensures IsSpace(LowerChar(c)) == IsSpace(c)
  {
  }

  lemma {:induction false} LowerTrimStart(s: string)
    ensures Lower(TrimStart(s)) == TrimStart(Lower(s))
  {
    if s != [] {
      LowerKeepsSpace(s[0]);
    }
    if s != [] && IsSpace(s[0]) {
      assert Lower(s)[1..] == Lower(s[1..]);
      LowerTrimStart(s[1..]);
    }
  }

  lemma {:induction false} LowerTrimEnd(s: string)
    ensures Lower(TrimEnd(s)) == TrimEnd(Lower(s))
  {
    if s != [] {
      LowerKeepsSpace(s[|s| - 1]);
    }
    if s != [] && IsSpace(s[|s| - 1]) {
      assert Lower(s)[..|s| - 1] == Lower(s[..|s| - 1]);
      LowerTrimEnd(s[..|s| - 1]);
    }
  }

  // ---------------------------------------------------------------------------
  // Decimal numbers

  predicate IsDigit(c: char) {
    '0' <= c <= '9'
  }

  predicate AllDigits(s: string) {
    forall k :: 0 <= k < |s| ==> IsDigit(s[k])
  }

  function DigitChar(d: nat): (c: char)
    requires d < 10
    ensures IsDigit(c)
  {
    ('0' as int + d) as char
  }

  /** The value of a string of ASCII digits, read most significant first. */
  function DigitsValue(s: string): nat
    requires AllDigits(s)
  {
    if s == [] then 0 else 10 * DigitsValue(s[..|s| - 1]) + (s[|s| - 1] as int - '0' as int)
  }

  /** The decimal rendering of a natural number, as `str(n)` gives it. */
  function NatToString(n: nat): (r: string)
    ensures r != [] && AllDigits(r)
    ensures DigitsValue(r) == n
  {
    if n < 10 then [DigitChar(n)]
    else
      var r := NatToString(n / 10) + [DigitChar(n % 10)];
      assert r[..|r| - 1] == NatToString(n / 10);
      r
  }

  /** `str(i)` for an integer: a minus sign for negative values, then the digits. */
  function IntToString(i: int): (r: string)
    ensures r != []
    ensures i >= 0 ==> AllDigits(r)
    ensures i < 0 ==> r[0] == '-' && AllDigits(r[1..])
  {
    if i < 0 then "-" + NatToString(-i) else NatToString(i)
  }

  /** The digits (after an optional sign) of an `int()` literal. */
  function SignedDigits(t: string): (int, string) {
    if |t| > 0 && (t[0] == '-' || t[0] == '+') then (if t[0] == '-' then -1 else 1, t[1..])
    else (1, t)
  }

  /**
   * Python's `int(s)` for a string: surrounding whitespace, an optional sign and
   * at least one ASCII digit; anything else raises (`None` here).
   */
  function ParseInt(s: string): (r: Option<int>)
    ensures r.Some? ==> exists k :: 0 <= k < |s| && IsDigit(s[k])
  {
    var t := Strip(s);
    var (sign, d) := SignedDigits(t);
    if d != [] && AllDigits(d) then
      StripInfix(s);
      assert d[0] == s[|s| - |TrimStart(s)| + (|t| - |d|)];
      Some(sign * DigitsValue(d))
    else None
  }

  /** `int(str(i)) == i`: the decimal rendering reads back as the same integer. */
  lemma IntToStringRoundTrip(i: int)
    ensures ParseInt(IntToString(i)) == Some(i)
  {
    var s := IntToString(i);
    var d := NatToString(if i < 0 then -i else i);
    assert !IsSpace(s[0]) && !IsSpace(s[|s| - 1]);
    TrimStartKeeps(s);
    TrimEndKeeps(s);
    assert Strip(s) == s;
    if i < 0 {
      assert s == "-" + d && s[1..] == d;
      assert SignedDigits(s) == (-1, d);
    } else {
      assert SignedDigits(s) == (1, d);
    }
  }

  function Pow10(n: nat): (r: nat)
    ensures r > 0
  {
    if n == 0 then 1 else 10 * Pow10(n - 1)
  }

  /** Index of the first `.` in `s`, or `|s|` when there is none. */
  function DotIndex(s: string): (i: nat)
    ensures i <= |s|
    ensures forall k :: 0 <= k < i ==> s[k] != '.'
    ensures i < |s| ==> s[i] == '.'
  {
    if s == [] then 0 else if s[0] == '.' then 0 else 1 + DotIndex(s[1..])
  }

  /**
   * Python's `float(s)` for the decimal forms `12`, `12.5`, `12.` and `.5`,
   * with surrounding whitespace and an optional sign; anything else raises
   * (`None` here).
   */
  function ParseFloat(s: string): (r: Option<real>)
    ensures Blank(s) ==> r.None?
    ensures Strip(s) == "." ==> r.None?
    ensures AllDigits(Strip(s)) && !Blank(s) ==> r == Some(DigitsValue(Strip(s)) as real)
  {
    var t := Strip(s);
    var (sign, b) := SignedDigits(t);
    var i := DotIndex(b);
    assert AllDigits(t) && t != [] ==> sign == 1 && b == t && (forall k :: 0 <= k < |b| ==> b[k] != '.') && i == |b|;
    var whole := b[..i];
    var frac := if i < |b| then b[i + 1..] else "";
    assert AllDigits(t) && t != [] ==> whole == t && frac == "" && DigitsValue(frac) == 0 && Pow10(0) == 1;
    if AllDigits(whole) && AllDigits(frac) && |whole| + |frac| > 0 then
      Some(sign as real * (DigitsValue(whole) as real + DigitsValue(frac) as real / Pow10(|frac|) as real))
    else None
  }

  /** Every string `int()` accepts, `float()` accepts with the same value. */
  lemma ParseFloatExtendsParseInt(s: string)
    requires ParseInt(s).Some?
    ensures ParseFloat(s) == Some(ParseInt(s).value as real)
  {
    var t := Strip(s);
    var (sign, b) := SignedDigits(t);
    assert AllDigits(b);
    assert forall k :: 0 <= k < |b| ==> b[k] != '.';
    assert DotIndex(b) == |b|;
    assert b[..|b|] == b;
  }

  // ---------------------------------------------------------------------------
  // Joining

  /** Python's `sep.join(parts)`. */
  function Join(sep: string, parts: seq<string>): (r: string)
    ensures |parts| == 1 ==> r == parts[0]
    decreases |parts|
  {
    if parts == [] then ""
    else if |parts| == 1 then parts[0]
    else parts[0] + sep + Join(sep, parts[1..])
  }

  /** Joining with a non-empty separator is empty exactly for no parts or one empty part. */
  lemma JoinEmpty(sep: string, parts: seq<string>)
    requires sep != ""
    ensures Join(sep, parts) == "" <==> |parts| == 0 || (|parts| == 1 && parts[0] == "")
  {
    if |parts| >= 2 {
      var r := Join(sep, parts);
      assert r == parts[0] + sep + Join(sep, parts[1..]);
      assert |r| >= |sep|;
    }
  }

  /** A join of at least one part ends with the last part. */
  lemma {:induction false} JoinEndsWithLast(sep: string, parts: seq<string>)
    requires parts != []
    ensures var r := Join(sep, parts);
            |parts[|parts| - 1]| <= |r| && r[|r| - |parts[|parts| - 1]|..] == parts[|parts| - 1]
    decreases |parts|
  {
    if |parts| > 1 {
      JoinEndsWithLast(sep, parts[1..]);
      var tail := Join(sep, parts[1..]);
      var last := parts[|parts| - 1];
      assert parts[1..][|parts| - 2] == last;
      assert Join(sep, parts) == (parts[0] + sep) + tail;
      assert (parts[0] + sep + tail)[|parts[0] + sep + tail| - |last|..] == tail[|tail| - |last|..];
    }
  }
}
