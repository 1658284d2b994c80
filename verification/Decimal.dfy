/** Decimal numerals. */
module Decimal {
  import opened Tokens

  function DigitChar(d: nat): (c: char)
    requires d < 10
    ensures '0' <= c <= '9' && (c - '0') as nat == d
  {
    '0' + d as char
  }

  predicate IsDigit(c: char) {
    '0' <= c <= '9'
  }

  predicate AllDigits(s: string) {
    forall i :: 0 <= i < |s| ==> IsDigit(s[i])
  }

  /** What %u and its like print. */
  function Numeral(n: nat): (s: Bytes)
    ensures s != "" && AllDigits(s)
  {
    if n < 10 then [DigitChar(n)] else Numeral(n / 10) + [DigitChar(n % 10)]
  }

  /** The number a run of digits stands for, after the number already read. */
  function ValueAfter(s: string, acc: nat): nat
    requires AllDigits(s)
  {
    if s == "" then acc else ValueAfter(s[1..], acc * 10 + (s[0] - '0') as nat)
  }

  lemma {:induction false} ValueAfterSnoc(s: string, c: char, acc: nat)
    requires AllDigits(s) && IsDigit(c)
    ensures AllDigits(s + [c]) && ValueAfter(s + [c], acc) == ValueAfter(s, acc) * 10 + (c - '0') as nat
  {
    if s == "" {
      assert s + [c] == [c];
      assert [c][1..] == "";
    } else {
      assert (s + [c])[1..] == s[1..] + [c];
      ValueAfterSnoc(s[1..], c, acc * 10 + (s[0] - '0') as nat);
    }
  }

  lemma {:induction false} ValueOfNumeral(n: nat)
    ensures ValueAfter(Numeral(n), 0) == n
  {
    if n < 10 {
      assert Numeral(n)[1..] == "";
    } else {
      ValueOfNumeral(n / 10);
      ValueAfterSnoc(Numeral(n / 10), DigitChar(n % 10), 0);
    }
  }

  // ----- Place values -----

  function Power10(k: nat): nat {
    if k == 0 then 1 else 10 * Power10(k - 1)
  }

  /** The sum of the digits, each times ten to its place counted from the right. */
  function PlaceSum(s: string): nat
    requires AllDigits(s)
  {
    if s == "" then 0 else (s[0] - '0') as nat * Power10(|s| - 1) + PlaceSum(s[1..])
  }

  /** Reading from the left, number by number, gives the sum of the place values. */
  lemma {:induction false} ValueIsPlaceSum(s: string, acc: nat)
    requires AllDigits(s)
    ensures ValueAfter(s, acc) == acc * Power10(|s|) + PlaceSum(s)
  {
    if s != "" {
      var d, p := (s[0] - '0') as nat, Power10(|s| - 1);
      ValueIsPlaceSum(s[1..], acc * 10 + d);
      assert (acc * 10 + d) * p == acc * (10 * p) + d * p;
    }
  }

  /** A numeral stands for its number in base ten. */
  lemma NumeralIsPlaceSum(n: nat)
    ensures PlaceSum(Numeral(n)) == n
  {
    ValueOfNumeral(n);
    ValueIsPlaceSum(Numeral(n), 0);
  }
}
