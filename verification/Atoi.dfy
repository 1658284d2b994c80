/** atoi, with the int arithmetic of its loop. */
module Atoi {
  import opened CStrings
  import Decimal

  const INT_MAX: int := 0x7fff_ffff

  predicate IsDigit(b: byte) {
    48 <= b <= 57
  }

  /** The value of a run of digits. */
  function Value(digits: seq<byte>): nat
    requires forall i :: 0 <= i < |digits| ==> IsDigit(digits[i])
  {
    if digits == [] then 0
    else
      assert IsDigit(digits[|digits| - 1]);
      Value(digits[..|digits| - 1]) * 10 + digits[|digits| - 1] - 48
  }

  /** A longer run has no smaller value. */
  lemma {:induction false} ValueGrows(digits: seq<byte>, n: nat)
    requires n <= |digits| && forall i :: 0 <= i < |digits| ==> IsDigit(digits[i])
    ensures Value(digits[..n]) <= Value(digits)
  {
    if n == |digits| {
      assert digits[..n] == digits;
    } else {
      var shorter := digits[..|digits| - 1];
      ValueGrows(shorter, n);
      assert shorter[..n] == digits[..n];
    }
  }

  /** The string at p starts with n digits, and the byte after them is no digit. */
  ghost predicate IsDigitRun(m: seq<byte>, p: nat, n: nat) {
    && p + n < |m|
    && (forall k :: p <= k < p + n ==> IsDigit(m[k]))
    && !IsDigit(m[p + n])
  }

  /** atoi. The result is not defined if some step of the loop overflows an int. As a digit's code is
      added before that of '0' is taken off, the values that can be read end 48 below the largest int. */
  method Atoi(mem: array<byte>, p: nat, ghost n: nat) returns (defined: bool, res: int)
    requires IsDigitRun(mem[..], p, n)
    ensures defined <==> Value(mem[..][p..p + n]) <= INT_MAX - 48
    ensures defined ==> res == Value(mem[..][p..p + n])
  {
    ghost var digits := mem[..][p..p + n];
    res := 0;
    var i := 0;
    while IsDigit(mem[p + i])
      invariant i <= n && 0 <= res <= INT_MAX - 48
      invariant res == Value(digits[..i])
      decreases n - i
    {
      assert i < n;
      assert digits[i] == mem[p + i];
      assert digits[..i + 1][..i] == digits[..i];
      ValueGrows(digits, i + 1);
      var product := res * 10;
      var sum := product + mem[p + i];
      if product > INT_MAX || sum > INT_MAX {
        return false, 0;
      }
      res := sum - 48;
      i := i + 1;
    }
    assert digits[..n] == digits;
    defined := true;
  }

  /** Every number is written by some run of digits, so each of the 48 ints above the bound is the
      value of an input that atoi cannot read. */
  lemma {:induction false} DigitsOf(n: nat) returns (digits: seq<byte>)
    ensures forall i :: 0 <= i < |digits| ==> IsDigit(digits[i])
    ensures Value(digits) == n
  {
    if n == 0 {
      digits := [];
    } else {
      var front := DigitsOf(n / 10);
      var last: byte := 48 + n % 10;
      digits := front + [last];
      assert digits[..|digits| - 1] == front;
    }
  }

  // ----- What the value is -----

  /** The characters that the bytes stand for. */
  function Text(digits: seq<byte>): (s: string)
    ensures |s| == |digits| && forall i :: 0 <= i < |s| ==> s[i] == digits[i] as char
  {
    seq(|digits|, i requires 0 <= i < |digits| => digits[i] as char)
  }

  lemma TextIsDigits(digits: seq<byte>)
    requires forall i :: 0 <= i < |digits| ==> IsDigit(digits[i])
    ensures Decimal.AllDigits(Text(digits))
  {
  }

  /** The value is the sum of the digits, each times ten to its place from the right. */
  lemma {:induction false} ValueIsPlaceSum(digits: seq<byte>)
    requires forall i :: 0 <= i < |digits| ==> IsDigit(digits[i])
    ensures Decimal.AllDigits(Text(digits)) && Value(digits) == Decimal.PlaceSum(Text(digits))
  {
    TextIsDigits(digits);
    Decimal.ValueIsPlaceSum(Text(digits), 0);
    if digits != [] {
      var front, last := digits[..|digits| - 1], digits[|digits| - 1];
      ValueIsPlaceSum(front);
      Decimal.ValueIsPlaceSum(Text(front), 0);
      Decimal.ValueAfterSnoc(Text(front), last as char, 0);
      assert Text(digits) == Text(front) + [last as char];
      assert (last as char - '0') as int == last - 48;
    }
  }

  /** The bytes of a numeral have the value of its number. */
  lemma NumeralIsReadBack(n: nat, digits: seq<byte>)
    requires Text(digits) == Decimal.Numeral(n)
    ensures forall i :: 0 <= i < |digits| ==> IsDigit(digits[i])
    ensures Value(digits) == n
  {
    forall i | 0 <= i < |digits| ensures IsDigit(digits[i]) {
      assert Text(digits)[i] == digits[i] as char;
      assert Decimal.IsDigit(Text(digits)[i]);
    }
    ValueIsPlaceSum(digits);
    Decimal.NumeralIsPlaceSum(n);
  }
}
