/**
  Decimal rendering of integers, as `std::to_string(int)` produces it: an
  optional minus sign followed by the digits of the magnitude, with no
  leading zeros. The benchmark uses it for the field names of its writes and
  for the counters of its progress line. `Parse` reads a rendering back and
  serves as the independent partner that makes the rendering's meaning
  precise (`ParseFromInt`).
 */
module Decimal {

  datatype Option<+T> = None | Some(value: T)

  predicate IsDigit(ch: char) {
    '0' <= ch <= '9'
  }

  predicate IsDigits(s: string) {
    forall k :: 0 <= k < |s| ==> IsDigit(s[k])
  }

  function DigitChar(d: int): (ch: char)
    requires 0 <= d < 10
    ensures IsDigit(ch) && ch as int - '0' as int == d
  {
    ('0' as int + d) as char
  }

  function DigitValue(ch: char): (d: nat)
    requires IsDigit(ch)
    ensures d < 10 && DigitChar(d) == ch
  {
    ch as int - '0' as int
  }

  /** The digits of `n`, most significant first, without leading zeros. */
  function FromNat(n: nat): (s: string)
    ensures |s| >= 1 && IsDigits(s)
    ensures n == 0 ==> s == "0"
    ensures n > 0 ==> s[0] != '0'
    decreases n
  {
    if n < 10 then [DigitChar(n)] else FromNat(n / 10) + [DigitChar(n % 10)]
  }

  /** `std::to_string` of an int: a minus sign for negative values. */
  function FromInt(n: int): (s: string)
    ensures |s| >= 1
    ensures s[0] == '-' <==> n < 0
    ensures IsDigits(if n < 0 then s[1..] else s)
    ensures n < 0 ==> |s| >= 2
    ensures n != 0 ==> s[if n < 0 then 1 else 0] != '0'
  {
    if n < 0 then "-" + FromNat(-n) else FromNat(n)
  }

  /** The value of a non-empty digit string, read most significant first. */
  function ValueOf(s: string): (v: nat)
    requires |s| >= 1 && IsDigits(s)
    decreases |s|
  {
    if |s| == 1 then DigitValue(s[0])
    else ValueOf(s[..|s| - 1]) * 10 + DigitValue(s[|s| - 1])
  }

  /** Reads an optional minus sign followed by at least one digit. */
  function Parse(s: string): (r: Option<int>)
    ensures r.Some? ==> |s| >= 1
  {
    if |s| >= 2 && s[0] == '-' && IsDigits(s[1..]) then Some(-(ValueOf(s[1..]) as int))
    else if |s| >= 1 && IsDigits(s) then Some(ValueOf(s))
    else None
  }

  lemma {:induction false} ValueOfFromNat(n: nat)
    ensures ValueOf(FromNat(n)) == n
    decreases n
  {
    if n >= 10 {
      var prefix := FromNat(n / 10);
      var s := FromNat(n);
      assert s == prefix + [DigitChar(n % 10)];
      assert s[..|s| - 1] == prefix;
      ValueOfFromNat(n / 10);
    }
  }

  /** Reading a rendering back gives the integer that was rendered. */
  lemma ParseFromInt(n: int)
    ensures Parse(FromInt(n)) == Some(n)
  {
    var s := FromInt(n);
    if n < 0 {
      ValueOfFromNat(-n);
      assert s[1..] == FromNat(-n);
      assert |s| >= 2 && s[0] == '-' && IsDigits(s[1..]);
    } else {
      ValueOfFromNat(n);
      assert s == FromNat(n) && s[0] != '-';
    }
  }

  /** Distinct integers have distinct renderings. */
  lemma FromIntInjective(i: int, j: int)
    requires i != j
    ensures FromInt(i) != FromInt(j)
  {
    ParseFromInt(i);
    ParseFromInt(j);
  }
}
