/** The JavaScript built-ins the core leans on, written out: `String.prototype.trim`,
    `Array.prototype.join`, and `Number.prototype.toString` on integers. Each comes
    with a reference partner (what trimming leaves behind, how a joined string
    splits back, how a decimal string parses back). */
module JsStrings {
  import opened Domain

  // ---------------------------------------------------------------------------
  // trim

  /** The characters `trim` strips: ECMAScript's WhiteSpace and LineTerminator
      code points. */
  predicate IsWhitespace(c: char)
  {
    || c == ' ' || c == '\t' || c == '\n' || c == '\r'
    || c == '\U{000B}' || c == '\U{000C}' || c == '\U{00A0}' || c == '\U{1680}'
    || ('\U{2000}' <= c <= '\U{200A}')
    || c == '\U{2028}' || c == '\U{2029}' || c == '\U{202F}' || c == '\U{205F}'
    || c == '\U{3000}' || c == '\U{FEFF}'
  }

  /** Every character of `s` is whitespace (vacuously so for ""). */
  predicate AllWhitespace(s: string)
  {
    forall k :: 0 <= k < |s| ==> IsWhitespace(s[k])
  }

  /** The index of the first non-whitespace character of `s` at or after `i` (`|s|` if none). */
  function TrimStart(s: string, i: nat): (a: nat)
    requires i <= |s|
    ensures i <= a <= |s|
    ensures forall k :: i <= k < a ==> IsWhitespace(s[k])
    ensures a < |s| ==> !IsWhitespace(s[a])
    decreases |s| - i
  {
    if i == |s| || !IsWhitespace(s[i]) then i else TrimStart(s, i + 1)
  }

  /** The index just past the last non-whitespace character of `s` before `e` and at or after `lo`. */
  function TrimEnd(s: string, lo: nat, e: nat): (f: nat)
    requires lo <= e <= |s|
    ensures lo <= f <= e
    ensures forall k :: f <= k < e ==> IsWhitespace(s[k])
    ensures lo < f ==> !IsWhitespace(s[f - 1])
  {
    if e == lo || !IsWhitespace(s[e - 1]) then e else TrimEnd(s, lo, e - 1)
  }

  /** `String.prototype.trim`: `s` without its leading and trailing whitespace. */
  function Trim(s: string): (r: string)
    ensures |r| <= |s|
    ensures r != [] ==> !IsWhitespace(r[0]) && !IsWhitespace(r[|r| - 1])
    ensures exists a, e :: 0 <= a <= e <= |s| && r == s[a..e]
              && (forall k :: 0 <= k < a ==> IsWhitespace(s[k]))
              && (forall k :: e <= k < |s| ==> IsWhitespace(s[k]))
  {
    var a := TrimStart(s, 0);
    var e := TrimEnd(s, a, |s|);
    assert a < e ==> s[a..e][0] == s[a] && s[a..e][e - a - 1] == s[e - 1];
    s[a..e]
  }

  /** A string is blank for `!s.trim()` exactly when it holds only whitespace. */
  lemma TrimEmptyIff(s: string)
    ensures Trim(s) == "" <==> AllWhitespace(s)
  {
    if !AllWhitespace(s) {
      var k :| 0 <= k < |s| && !IsWhitespace(s[k]);
      TrimKeeps(s, k);
    }
  }

  /** A string with a non-whitespace character does not trim to "". */
  lemma TrimKeeps(s: string, k: nat)
    requires k < |s| && !IsWhitespace(s[k])
    ensures Trim(s) != ""
  {
    var r := Trim(s);
    var a, e :| 0 <= a <= e <= |s| && r == s[a..e]
      && (forall k :: 0 <= k < a ==> IsWhitespace(s[k]))
      && (forall k :: e <= k < |s| ==> IsWhitespace(s[k]));
    assert a <= k < e;
  }

  /** A string that neither starts nor ends with whitespace is left as it is. */
  lemma TrimUnpadded(s: string)
    requires s != [] ==> !IsWhitespace(s[0]) && !IsWhitespace(s[|s| - 1])
    ensures Trim(s) == s
  {
    assert TrimStart(s, 0) == 0;
    assert TrimEnd(s, 0, |s|) == |s|;
    assert s[0..|s|] == s;
  }

  /** Trimming twice is trimming once. */
  lemma TrimIdempotent(s: string)
    ensures Trim(Trim(s)) == Trim(s)
  {
    TrimUnpadded(Trim(s));
  }

  // ---------------------------------------------------------------------------
  // join

  /** `parts.join(sep)`: no separator for zero or one part. */
  function Join(parts: seq<string>, sep: string): string
  {
    if |parts| == 0 then ""
    else if |parts| == 1 then parts[0]
    else parts[0] + sep + Join(parts[1..], sep)
  }

  /** The index of the first occurrence of `c` in `s`. */
  function FirstIndexOf(s: string, c: char): (i: nat)
    requires c in s
    ensures i < |s| && s[i] == c
    ensures forall k :: 0 <= k < i ==> s[k] != c
  {
    if s[0] == c then 0 else 1 + FirstIndexOf(s[1..], c)
  }

  /** Splits a ", "-joined string back into its fields: each comma ends a field,
      and the character after it (the separator's space) is dropped. */
  function SplitAtCommas(s: string): (r: seq<string>)
    ensures |r| > 0
    decreases |s|
  {
    if ',' !in s then [s]
    else
      var i := FirstIndexOf(s, ',');
      var next := if i + 2 <= |s| then i + 2 else |s|;
      [s[..i]] + SplitAtCommas(s[next..])
  }

  /** Splitting a comma-free name followed by ", " peels that name off. */
  lemma SplitAtCommasStep(p: string, rest: string)
    requires ',' !in p
    ensures SplitAtCommas(p + ", " + rest) == [p] + SplitAtCommas(rest)
  {
    var s := p + ", " + rest;
    assert s[|p|] == ',';
    assert forall k :: 0 <= k < |p| ==> s[k] == p[k];
    var i := FirstIndexOf(s, ',');
    assert i == |p|;
    assert s[..i] == p;
    assert s[i + 2..] == rest;
  }

  /** Round trip of `join(", ")`: a non-empty list of comma-free names is
      recovered from the joined string. */
  lemma {:induction false} JoinSplitRoundTrip(parts: seq<string>)
    requires |parts| > 0
    requires forall k :: 0 <= k < |parts| ==> ',' !in parts[k]
    ensures SplitAtCommas(Join(parts, ", ")) == parts
  {
    if |parts| > 1 {
      var tail := parts[1..];
      assert forall k :: 0 <= k < |tail| ==> ',' !in tail[k] by {
        forall k | 0 <= k < |tail| ensures ',' !in tail[k] {
          assert tail[k] == parts[k + 1];
        }
      }
      JoinSplitRoundTrip(tail);
      SplitAtCommasStep(parts[0], Join(tail, ", "));
      assert parts == [parts[0]] + tail;
    }
  }

  // ---------------------------------------------------------------------------
  // number to decimal string

  predicate IsDigit(c: char)
  {
    '0' <= c <= '9'
  }

  /** Every character of `s` is a decimal digit. */
  predicate AllDigits(s: string)
  {
    forall k :: 0 <= k < |s| ==> IsDigit(s[k])
  }

  function DigitChar(d: nat): (c: char)
    requires d < 10
    ensures IsDigit(c)
  {
    "0123456789"[d]
  }

  function DigitValue(c: char): (d: nat)
    requires IsDigit(c)
    ensures d < 10 && DigitChar(d) == c
  {
    (c as int - '0' as int) as nat
  }

  /** The decimal digits of a natural number, most significant first. */
  function NatToString(n: nat): (s: string)
    ensures |s| > 0
    ensures AllDigits(s)
    decreases n
  {
    if n < 10 then [DigitChar(n)] else NatToString(n / 10) + [DigitChar(n % 10)]
  }

  /** `Number.prototype.toString` on an integer: decimal, with a minus sign
      when negative. */
  function IntToString(n: int): (s: string)
  {
    if n < 0 then "-" + NatToString(-n) else NatToString(n)
  }

  /** The value of a non-empty string of decimal digits. */
  function ParseDigits(s: string): nat
    requires |s| > 0
    requires AllDigits(s)
  {
    if |s| == 1 then DigitValue(s[0])
    else ParseDigits(s[..|s| - 1]) * 10 + DigitValue(s[|s| - 1])
  }

  /** Reads back an unsigned decimal integer; None for anything else. */
  function ParseUnsigned(t: string): Option<nat>
  {
    if |t| > 0 && AllDigits(t) then Some(ParseDigits(t)) else None
  }

  /** Reads back an optionally signed decimal integer; None for anything else. */
  function ParseInt(s: string): Option<int>
  {
    if |s| > 0 && s[0] == '-' then
      match ParseUnsigned(s[1..])
      case Some(v) => Some(-(v as int))
      case None => None
    else
      match ParseUnsigned(s)
      case Some(v) => Some(v as int)
      case None => None
  }

  lemma {:induction false} NatRoundTrip(n: nat)
    ensures ParseDigits(NatToString(n)) == n
    decreases n
  {
    if n >= 10 {
      var s := NatToString(n);
      var prefix := NatToString(n / 10);
      assert s[..|s| - 1] == prefix;
      NatRoundTrip(n / 10);
    }
  }

  /** ParseInt reads a string of digits as its value. */
  lemma ParseIntDigits(t: string)
    requires |t| > 0 && AllDigits(t)
    ensures ParseInt(t) == Some(ParseDigits(t) as int)
  {
    assert IsDigit(t[0]);
  }

  /** ParseInt reads a minus sign followed by digits as the negated value. */
  lemma ParseIntNegated(s: string)
    requires |s| > 1 && s[0] == '-' && AllDigits(s[1..])
    ensures ParseInt(s) == Some(-(ParseDigits(s[1..]) as int))
  {
  }

  /** Round trip of `toString` on integers. */
  lemma IntRoundTrip(n: int)
    ensures ParseInt(IntToString(n)) == Some(n)
  {
    var m: nat := if n < 0 then -n else n;
    NatRoundTrip(m);
    if n < 0 {
      var s := IntToString(n);
      assert s[1..] == NatToString(m);
      ParseIntNegated(s);
    } else {
      ParseIntDigits(NatToString(m));
    }
  }
}
