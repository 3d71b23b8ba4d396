/** The Python string primitives the alert service relies on:
    `str.strip()`, `str.split(" ", 1)`, `str.lower()` and `str(int)`. */
module Text {
  import opened Wrappers

  // ---------------------------------------------------------------------------
  // str.strip()
  // ---------------------------------------------------------------------------

  /** The characters for which Python's `str.isspace()` holds; these are the
      characters `str.strip()` without an argument removes from both ends. */
  predicate IsSpace(c: char) {
    || ('\t' <= c <= '\r')
    || ('\U{1C}' <= c <= '\U{1F}')
    || c == ' '
    || c == '\U{85}'
    || c == '\U{A0}'
    || c == '\U{1680}'
    || ('\U{2000}' <= c <= '\U{200A}')
    || c == '\U{2028}'
    || c == '\U{2029}'
    || c == '\U{202F}'
    || c == '\U{205F}'
    || c == '\U{3000}'
  }

  predicate AllSpace(s: string) {
    forall i :: 0 <= i < |s| ==> IsSpace(s[i])
  }

  /** `s.lstrip()`: a suffix of `s` that starts with a non-space, and every
      character it drops is whitespace. */
  function TrimLeft(s: string): (r: string)
    ensures |r| <= |s| && r == s[|s| - |r|..]
    ensures forall i :: 0 <= i < |s| - |r| ==> IsSpace(s[i])
    ensures r == [] || !IsSpace(r[0])
  {
    if s != [] && IsSpace(s[0]) then
      var r := TrimLeft(s[1..]);
      assert s[1..][|s| - 1 - |r|..] == s[|s| - |r|..];
      assert forall i :: 1 <= i < |s| ==> s[i] == s[1..][i - 1];
      r
    else s
  }

  /** `s.rstrip()`: a prefix of `s` that ends with a non-space, and every
      character it drops is whitespace. */
  function TrimRight(s: string): (r: string)
    ensures |r| <= |s| && r == s[..|r|]
    ensures forall i :: |r| <= i < |s| ==> IsSpace(s[i])
    ensures r == [] || !IsSpace(r[|r| - 1])
  {
    if s != [] && IsSpace(s[|s| - 1]) then
      var r := TrimRight(s[..|s| - 1]);
      assert s[..|s| - 1][..|r|] == s[..|r|];
      assert forall i :: 0 <= i < |s| - 1 ==> s[i] == s[..|s| - 1][i];
      r
    else s
  }

  /** `r` is the infix of `s` that starts at `i`, and everything of `s`
      before and after it is whitespace. */
  predicate StrippedAt(s: string, r: string, i: int) {
    && 0 <= i <= |s| - |r|
    && r == s[i..i + |r|]
    && (forall j :: 0 <= j < i ==> IsSpace(s[j]))
    && (forall j :: i + |r| <= j < |s| ==> IsSpace(s[j]))
  }

  /** `s.strip()`: the infix of `s` left once the leading and trailing
      whitespace is removed. It has no whitespace at either end, and it is
      empty exactly when `s` is all whitespace. */
  function Strip(s: string): (r: string)
    ensures exists i :: StrippedAt(s, r, i)
    ensures r == [] || (!IsSpace(r[0]) && !IsSpace(r[|r| - 1]))
    ensures r == [] <==> AllSpace(s)
  {
    var t := TrimLeft(s);
    var r := TrimRight(t);
    TrimmedIsStripped(s, t, r);
    if r == [] then r
    else
      assert r[0] == t[0] == s[|s| - |t|];
      r
  }

  /** Removing whitespace from the front of `s`, giving `t`, then from the
      back of `t`, giving `r`, removes only whitespace and only at the ends. */
  lemma TrimmedIsStripped(s: string, t: string, r: string)
    requires |t| <= |s| && t == s[|s| - |t|..]
    requires forall j :: 0 <= j < |s| - |t| ==> IsSpace(s[j])
    requires |r| <= |t| && r == t[..|r|]
    requires forall j :: |r| <= j < |t| ==> IsSpace(t[j])
    ensures StrippedAt(s, r, |s| - |t|)
  {
    var i := |s| - |t|;
    assert r == s[i..i + |r|];
    forall j | i + |r| <= j < |s|
      ensures IsSpace(s[j])
    {
      assert s[j] == t[j - i];
    }
  }

  /** Stripping a string that neither starts nor ends with whitespace leaves it unchanged. */
  lemma StripOfTrimmed(s: string)
    requires s == [] || (!IsSpace(s[0]) && !IsSpace(s[|s| - 1]))
    ensures Strip(s) == s
  {
    assert TrimLeft(s) == s;
    assert TrimRight(s) == s;
  }

  /** `s.strip().strip() == s.strip()`. */
  lemma StripIdempotent(s: string)
    ensures Strip(Strip(s)) == Strip(s)
  {
    StripOfTrimmed(Strip(s));
  }

  /** Stripping whitespace padding on either side of a stripped, non-blank
      string gives it back; the two pads need not be alike. */
  lemma StripPadded(left: string, s: string, right: string)
    requires AllSpace(left) && AllSpace(right) && s != [] && Strip(s) == s
    ensures Strip(left + s + right) == s
  {
    assert !IsSpace(s[0]) && !IsSpace(s[|s| - 1]);
    var sr := s + right;
    assert left + s + right == left + sr;
    assert sr[0] == s[0];
    TrimLeftPadded(left, sr);
    TrimRightPadded(s, right);
  }

  lemma {:induction false} TrimLeftPadded(pad: string, s: string)
    requires AllSpace(pad) && s != [] && !IsSpace(s[0])
    ensures TrimLeft(pad + s) == s
  {
    if pad != [] {
      assert (pad + s)[0] == pad[0] && IsSpace(pad[0]);
      assert (pad + s)[1..] == pad[1..] + s;
      assert forall i :: 0 <= i < |pad| - 1 ==> pad[1..][i] == pad[i + 1];
      TrimLeftPadded(pad[1..], s);
    }
  }

  lemma {:induction false} TrimRightPadded(s: string, pad: string)
    requires AllSpace(pad) && s != [] && !IsSpace(s[|s| - 1])
    ensures TrimRight(s + pad) == s
  {
    if pad != [] {
      assert (s + pad)[|s + pad| - 1] == pad[|pad| - 1] && IsSpace(pad[|pad| - 1]);
      assert (s + pad)[..|s + pad| - 1] == s + pad[..|pad| - 1];
      assert forall i :: 0 <= i < |pad| - 1 ==> pad[..|pad| - 1][i] == pad[i];
      TrimRightPadded(s, pad[..|pad| - 1]);
    }
  }

  // ---------------------------------------------------------------------------
  // str.split(" ", 1)
  // ---------------------------------------------------------------------------

  /** `s.split(" ", 1)` for a non-empty `s`: `None` stands for the one-part
      result `[s]`, `Some((head, tail))` for the two-part result, cut at the
      first space. */
  function SplitAtSpace(s: string): (r: Option<(string, string)>)
    ensures r.None? <==> ' ' !in s
    ensures r.Some? ==> ' ' !in r.value.0 && s == r.value.0 + " " + r.value.1
  {
    if s == [] then None
    else if s[0] == ' ' then Some(([], s[1..]))
    else
      match SplitAtSpace(s[1..])
      case None => None
      case Some((head, tail)) => Some(([s[0]] + head, tail))
  }

  /** Splitting a string built as `head + " " + tail`, where `head` holds no
      space, gives back exactly `head` and `tail`. */
  lemma {:induction false} SplitAtSpaceOfJoin(head: string, tail: string)
    requires ' ' !in head
    ensures SplitAtSpace(head + " " + tail) == Some((head, tail))
  {
    var s := head + " " + tail;
    if head != [] {
      assert s[1..] == head[1..] + " " + tail;
      SplitAtSpaceOfJoin(head[1..], tail);
      assert [head[0]] + head[1..] == head;
    }
  }

  // ---------------------------------------------------------------------------
  // str.lower()
  // ---------------------------------------------------------------------------

  function LowerChar(c: char): char {
    if 'A' <= c <= 'Z' then (c as int + 32) as char else c
  }

  /** `s.lower()` on the ASCII letters. */
  function Lower(s: string): (r: string)
    ensures |r| == |s|
    ensures forall i :: 0 <= i < |s| ==> r[i] == LowerChar(s[i])
  {
    if s == [] then [] else [LowerChar(s[0])] + Lower(s[1..])
  }

  // ---------------------------------------------------------------------------
  // str(int)
  // ---------------------------------------------------------------------------

  predicate IsDigit(c: char) {
    '0' <= c <= '9'
  }

  predicate AllDigits(s: string) {
    forall i :: 0 <= i < |s| ==> IsDigit(s[i])
  }

  function DigitChar(d: nat): char
    requires d < 10
  {
    ('0' as int + d) as char
  }

  /** The decimal digits of `n`, most significant first, without leading zeros. */
  function NatToDecimal(n: nat): (r: string)
    ensures r != [] && AllDigits(r)
    ensures |r| > 1 ==> r[0] != '0'
  {
    if n < 10 then [DigitChar(n)] else NatToDecimal(n / 10) + [DigitChar(n % 10)]
  }

  /** The form `str(i)` writes an integer in: an optional minus sign, then
      decimal digits with no leading zero, and no "-0". */
  predicate CanonicalDecimal(s: string) {
    || (s != [] && AllDigits(s) && (|s| > 1 ==> s[0] != '0'))
    || (|s| >= 2 && s[0] == '-' && AllDigits(s[1..]) && s[1] != '0')
  }

  /** `str(i)` for a Python `int`: a minus sign for negative values, then the digits. */
  function IntToDecimal(i: int): (r: string)
    ensures CanonicalDecimal(r)
    ensures r[0] == '-' <==> i < 0
  {
    if i < 0 then
      var digits := NatToDecimal(-i);
      assert digits == [] + digits;
      assert ("-" + digits)[1..] == digits;
      assert digits != "0" by { NatToDecimalRoundTrip(-i); }
      "-" + digits
    else NatToDecimal(i)
  }

  /** The number a string of decimal digits denotes. */
  function DecimalValue(s: string): nat
    requires AllDigits(s)
  {
    if s == [] then 0 else DecimalValue(s[..|s| - 1]) * 10 + (s[|s| - 1] as int - '0' as int)
  }

  /** `int(s)` restricted to an optional minus sign followed by digits: it
      accepts exactly those strings, and the sign of the result follows the
      sign written. */
  function ParseInt(s: string): (r: Option<int>)
    ensures r.Some? <==>
      (s != [] && AllDigits(s)) || (|s| >= 2 && s[0] == '-' && AllDigits(s[1..]))
    ensures r.Some? && s[0] != '-' ==> r.value >= 0
    ensures r.Some? && s[0] == '-' ==> r.value <= 0
  {
    if |s| >= 2 && s[0] == '-' && AllDigits(s[1..]) then Some(0 - DecimalValue(s[1..]) as int)
    else if s != [] && AllDigits(s) then
      assert s[0] != '-' by { assert IsDigit(s[0]); }
      Some(DecimalValue(s))
    else None
  }

  lemma {:induction false} NatToDecimalRoundTrip(n: nat)
    ensures DecimalValue(NatToDecimal(n)) == n
  {
    if n >= 10 {
      NatToDecimalRoundTrip(n / 10);
      var r := NatToDecimal(n);
      assert r[..|r| - 1] == NatToDecimal(n / 10);
    }
  }

  /** `int(str(i)) == i`: the rendering loses nothing. */
  lemma IntToDecimalRoundTrip(i: int)
    ensures ParseInt(IntToDecimal(i)) == Some(i)
  {
    if i < 0 {
      NatToDecimalRoundTrip(-i);
      assert IntToDecimal(i)[1..] == NatToDecimal(-i);
    } else {
      NatToDecimalRoundTrip(i);
    }
  }

  /** A digit string that starts with a non-zero digit denotes a positive number. */
  lemma {:induction false} LeadingDigitPositive(s: string)
    requires s != [] && AllDigits(s) && s[0] != '0'
    ensures DecimalValue(s) >= 1
  {
    if |s| > 1 {
      var pre := s[..|s| - 1];
      assert pre[0] == s[0] && AllDigits(pre);
      LeadingDigitPositive(pre);
    }
  }

  /** A digit string without leading zeros is the rendering of its own value. */
  lemma {:induction false} NatToDecimalUnique(s: string)
    requires s != [] && AllDigits(s) && (|s| > 1 ==> s[0] != '0')
    ensures NatToDecimal(DecimalValue(s)) == s
  {
    var last := s[|s| - 1];
    assert IsDigit(last);
    if |s| == 1 {
      assert s == [last];
    } else {
      var pre := s[..|s| - 1];
      assert pre[0] == s[0] && AllDigits(pre);
      LeadingDigitPositive(pre);
      NatToDecimalUnique(pre);
      assert s == pre + [last];
    }
  }

  /** `str(i)` is the only canonical rendering of `i`: a canonical string
      that parses to `i` is `str(i)`. */
  lemma IntToDecimalUnique(s: string, i: int)
    requires CanonicalDecimal(s) && ParseInt(s) == Some(i)
    ensures s == IntToDecimal(i)
  {
    if s[0] == '-' {
      var digits := s[1..];
      assert digits[0] == s[1];
      LeadingDigitPositive(digits);
      NatToDecimalUnique(digits);
      assert s == "-" + digits;
    } else {
      NatToDecimalUnique(s);
    }
  }
}
