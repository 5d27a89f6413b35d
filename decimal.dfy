/**
 * Decimal text of integers as the server produces and reads it: fmt's `%d`
 * and strconv.Itoa on the writing side, strconv.Atoi on the reading side, and
 * strings.Split for the fields of a Redis key.
 */
module Decimal {
  import opened Base

  const MaxInt64: int := 0x7fff_ffff_ffff_ffff
  const MinInt64: int := -0x8000_0000_0000_0000

  predicate IsDigit(c: char)
  {
    '0' <= c <= '9'
  }

  predicate AllDigits(s: string)
  {
    forall i | 0 <= i < |s| :: IsDigit(s[i])
  }

  function DigitChar(d: nat): (c: char)
    requires d < 10
    ensures IsDigit(c)
  {
    (d + '0' as int) as char
  }

  function DigitValue(c: char): (d: nat)
    requires IsDigit(c)
    ensures d < 10 && DigitChar(d) == c
  {
    c as int - '0' as int
  }

  /** Decimal digits of n, most significant first, without leading zeros. */
  function NatToString(n: nat): (s: string)
    ensures 1 <= |s| && AllDigits(s)
    ensures |s| > 1 ==> s[0] != '0'
    decreases n
  {
    if n < 10 then [DigitChar(n)] else NatToString(n / 10) + [DigitChar(n % 10)]
  }

  /** `%d` / strconv.Itoa: a leading '-' for negative numbers, then the digits. */
  function IntToString(i: int): (s: string)
    ensures 1 <= |s|
    ensures forall k | 0 <= k < |s| :: IsDigit(s[k]) || (k == 0 && s[k] == '-')
    ensures (s[0] == '-') <==> i < 0
  {
    if i < 0 then "-" + NatToString(-i) else NatToString(i)
  }

  /** Value of a run of decimal digits, read left to right. */
  function DigitsValue(s: string): nat
    requires AllDigits(s)
    decreases |s|
  {
    if s == [] then 0 else DigitsValue(s[..|s| - 1]) * 10 + DigitValue(s[|s| - 1])
  }

  /**
   * The syntax strconv accepts for a base-10 integer: an optional '+' or '-'
   * followed by at least one decimal digit (leading zeros allowed).
   */
  function ParseInteger(s: string): (r: Option<int>)
    ensures r.Some? ==> |s| > 0
    ensures r.Some? && !(s[0] == '-' || s[0] == '+') ==> AllDigits(s)
  {
    if |s| > 0 && (s[0] == '-' || s[0] == '+') then
      var digits := s[1..];
      if |digits| > 0 && AllDigits(digits) then
        Some(if s[0] == '-' then 0 - DigitsValue(digits) as int else DigitsValue(digits) as int)
      else None
    else if |s| > 0 && AllDigits(s) then Some(DigitsValue(s))
    else None
  }

  /** Value and error flag returned by strconv.Atoi on a 64-bit platform. */
  datatype AtoiResult = AtoiResult(value: int, ok: bool)

  const MaxUint64: int := 0xffff_ffff_ffff_ffff

  predicate Negative(s: string)
  {
    |s| > 0 && s[0] == '-'
  }

  /** The text after an optional leading '+' or '-'. */
  function Unsigned(s: string): (u: string)
    ensures |s| > 0 && (s[0] == '-' || s[0] == '+') ==> u == s[1..]
    ensures !(|s| > 0 && (s[0] == '-' || s[0] == '+')) ==> u == s
  {
    if |s| > 0 && (s[0] == '-' || s[0] == '+') then s[1..] else s
  }

  /** The longest run of decimal digits at the start of s. */
  function LeadingDigits(s: string): (d: string)
    ensures AllDigits(d) && d <= s
    ensures |d| < |s| ==> !IsDigit(s[|d|])
    decreases |s|
  {
    if |s| == 0 || !IsDigit(s[0]) then "" else [s[0]] + LeadingDigits(s[1..])
  }

  /**
   * ParseUint reads left to right and reports a range error as soon as the
   * digits read so far exceed 2^64 - 1, before it reaches any later
   * non-digit.
   */
  predicate Overflows(s: string)
  {
    DigitsValue(LeadingDigits(Unsigned(s))) > MaxUint64
  }

  /**
   * strconv.Atoi: a value outside int64 is clamped to the bound on its side
   * and reported as an error, and so is text whose leading digits overflow
   * uint64 before a non-digit; any other syntax error gives 0.
   */
  function Atoi(s: string): (r: AtoiResult)
    ensures MinInt64 <= r.value <= MaxInt64
    ensures r.ok <==> ParseInteger(s).Some? && MinInt64 <= ParseInteger(s).value <= MaxInt64
    ensures r.ok ==> r.value == ParseInteger(s).value
    ensures ParseInteger(s).Some? && ParseInteger(s).value > MaxInt64 ==> r.value == MaxInt64
    ensures ParseInteger(s).Some? && ParseInteger(s).value < MinInt64 ==> r.value == MinInt64
    ensures ParseInteger(s).None? && !Overflows(s) ==> r.value == 0
    ensures ParseInteger(s).None? && Overflows(s) ==> r.value == (if Negative(s) then MinInt64 else MaxInt64)
  {
    match ParseInteger(s)
    case None =>
      if Overflows(s) then AtoiResult(if Negative(s) then MinInt64 else MaxInt64, false)
      else AtoiResult(0, false)
    case Some(v) =>
      if v > MaxInt64 then AtoiResult(MaxInt64, false)
      else if v < MinInt64 then AtoiResult(MinInt64, false)
      else AtoiResult(v, true)
  }

  lemma {:induction false} DigitsValueOfNatToString(n: nat)
    ensures DigitsValue(NatToString(n)) == n
    decreases n
  {
    var s := NatToString(n);
    if n < 10 {
      assert s[..|s| - 1] == [];
    } else {
      DigitsValueOfNatToString(n / 10);
      assert s[..|s| - 1] == NatToString(n / 10);
    }
  }

  /** Parsing the text that `%d` printed gives the number back. */
  lemma ParseIntToString(i: int)
    ensures ParseInteger(IntToString(i)) == Some(i)
  {
    var s := IntToString(i);
    if i < 0 {
      assert s[1..] == NatToString(-i);
      DigitsValueOfNatToString(-i);
    } else {
      DigitsValueOfNatToString(i);
    }
  }

  /** Atoi reads back exactly what Itoa wrote, for every int64. */
  lemma AtoiItoa(i: int)
    requires MinInt64 <= i <= MaxInt64
    ensures Atoi(IntToString(i)) == AtoiResult(i, true)
  {
    ParseIntToString(i);
  }

  /** Distinct numbers have distinct decimal texts. */
  lemma IntToStringInjective(a: int, b: int)
    requires a != b
    ensures IntToString(a) != IntToString(b)
  {
    ParseIntToString(a);
    ParseIntToString(b);
  }

  lemma {:induction false} LeadingDigitsOfConcat(digits: string, rest: string)
    requires AllDigits(digits)
    requires |rest| == 0 || !IsDigit(rest[0])
    ensures LeadingDigits(digits + rest) == digits
    decreases |digits|
  {
    if |digits| > 0 {
      assert (digits + rest)[1..] == digits[1..] + rest;
      LeadingDigitsOfConcat(digits[1..], rest);
    } else {
      assert digits + rest == rest;
    }
  }

  /**
   * Digits too large for uint64 followed by a non-digit are a range error,
   * not a syntax error: Atoi clamps them by their sign instead of giving 0.
   */
  lemma OverflowBeforeNonDigit(digits: string, rest: string)
    requires AllDigits(digits) && DigitsValue(digits) > MaxUint64
    requires |rest| > 0 && !IsDigit(rest[0])
    ensures Atoi(digits + rest) == AtoiResult(MaxInt64, false)
    ensures Atoi("-" + digits + rest) == AtoiResult(MinInt64, false)
  {
    var s := digits + rest;
    assert |digits| > 0;
    assert IsDigit(s[0]) && !IsDigit(s[|digits|]);
    assert Unsigned(s) == s;
    assert ParseInteger(s).None?;
    LeadingDigitsOfConcat(digits, rest);
    assert Overflows(s);
    var n := "-" + digits + rest;
    assert n[1..] == s;
    assert Unsigned(n) == s;
    assert !AllDigits(n[1..]);
    assert ParseInteger(n).None?;
  }

  /**
   * strings.Split(s, string(sep)): the fields between separators, one more
   * field than there are separators; "" splits into [""].
   */
  function Split(s: string, sep: char): (parts: seq<string>)
    ensures |parts| >= 1
    decreases |s|
  {
    if |s| == 0 then [""]
    else
      var rest := Split(s[1..], sep);
      if s[0] == sep then [""] + rest else [[s[0]] + rest[0]] + rest[1..]
  }

  lemma {:induction false} SplitWithoutSeparator(a: string, sep: char)
    requires sep !in a
    ensures Split(a, sep) == [a]
    decreases |a|
  {
    if |a| > 0 {
      SplitWithoutSeparator(a[1..], sep);
      assert [a[0]] + a[1..] == a;
    }
  }

  /** The text before the first separator is the first field. */
  lemma {:induction false} SplitFirstField(a: string, sep: char, b: string)
    requires sep !in a
    ensures Split(a + [sep] + b, sep) == [a] + Split(b, sep)
    decreases |a|
  {
    var s := a + [sep] + b;
    if |a| == 0 {
      assert s[1..] == b;
    } else {
      assert s[1..] == a[1..] + [sep] + b;
      SplitFirstField(a[1..], sep, b);
      assert [a[0]] + a[1..] == a;
    }
  }

  /** Three separator-free texts joined by the separator split back into those three. */
  lemma SplitThreeFields(a: string, b: string, c: string, sep: char)
    requires sep !in a && sep !in b && sep !in c
    ensures Split(a + [sep] + b + [sep] + c, sep) == [a, b, c]
  {
    SplitWithoutSeparator(c, sep);
    SplitFirstField(b, sep, c);
    assert a + [sep] + b + [sep] + c == a + [sep] + (b + [sep] + c);
    SplitFirstField(a, sep, b + [sep] + c);
  }

  /** A separator anywhere yields at least two fields. */
  lemma {:induction false} SplitAtSeparator(s: string, sep: char, k: nat)
    requires k < |s| && s[k] == sep
    ensures |Split(s, sep)| >= 2
    decreases k
  {
    if k > 0 {
      SplitAtSeparator(s[1..], sep, k - 1);
    }
  }
}
