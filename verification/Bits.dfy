/** Powers of two, bitwise operations on numbers, and the division facts that relate them. */
module Bits {

  function Pow2(n: nat): (p: nat)
    ensures p >= 1
  {
    if n == 0 then 1 else 2 * Pow2(n - 1)
  }

  lemma {:induction false} Pow2Add(a: nat, b: nat)
    ensures Pow2(a + b) == Pow2(a) * Pow2(b)
  {
    if a > 0 {
      Pow2Add(a - 1, b);
      assert Pow2(a) * Pow2(b) == 2 * (Pow2(a - 1) * Pow2(b));
    }
  }

  lemma Pow2Grows(a: nat, b: nat)
    requires a <= b
    ensures Pow2(a) <= Pow2(b)
    decreases b
  {
    if a < b {
      Pow2Grows(a, b - 1);
    }
  }

  lemma Pow2GrowsStrictly(a: nat, b: nat)
    requires a < b
    ensures Pow2(a) < Pow2(b)
    decreases b
  {
    if a < b - 1 {
      Pow2GrowsStrictly(a, b - 1);
    }
  }

  const W: nat := 0x1_0000_0000

  lemma Pow2Words()
    ensures Pow2(32) == W && Pow2(64) == W * W
  {
    Pow2Add(2, 2);
    Pow2Add(4, 4);
    Pow2Add(8, 8);
    Pow2Add(16, 16);
    Pow2Add(32, 32);
  }

  // ----- Division and remainder -----

  lemma LargeMultiple(k: int, d: int)
    requires k >= 1 && d > 0
    ensures k * d >= d
  {
    assert (k - 1) * d >= 0;
  }

  lemma SmallMultiple(k: int, d: int)
    requires d > 0 && -d < k * d < d
    ensures k == 0
  {
    if k > 0 {
      LargeMultiple(k, d);
    } else if k < 0 {
      LargeMultiple(-k, d);
    }
  }

  /** Two ways of writing a number as a multiple plus a remainder are one. */
  lemma OneQuotient(d: int, q: int, r: int, q': int, r': int)
    requires d > 0 && 0 <= r < d && 0 <= r' < d
    requires q * d + r == q' * d + r'
    ensures q == q' && r == r'
  {
    assert (q - q') * d == r' - r;
    SmallMultiple(q - q', d);
  }

  /** The quotient and remainder are the only ones. */
  lemma DivModUnique(x: int, d: int, q: int, r: int)
    requires d > 0 && x == q * d + r && 0 <= r < d
    ensures x / d == q && x % d == r
  {
    OneQuotient(d, q, r, x / d, x % d);
  }

  lemma ModPlus(x: int, k: int, d: int)
    requires d > 0
    ensures (x + k * d) % d == x % d
  {
    assert x + k * d == (x / d + k) * d + x % d;
    DivModUnique(x + k * d, d, x / d + k, x % d);
  }

  lemma DivPlus(x: int, k: int, d: int)
    requires d > 0
    ensures (x + k * d) / d == x / d + k
  {
    assert x + k * d == (x / d + k) * d + x % d;
    DivModUnique(x + k * d, d, x / d + k, x % d);
  }

  lemma DivDiv(x: int, a: int, b: int)
    requires a > 0 && b > 0
    ensures a * b > 0 && x / a / b == x / (a * b)
  {
    var q := x / a / b;
    var r := (x / a) % b * a + x % a;
    assert a * b > 0;
    assert x == (q * b + (x / a) % b) * a + x % a;
    assert (q * b + (x / a) % b) * a == q * (a * b) + (x / a) % b * a;
    assert ((x / a) % b) * a <= (b - 1) * a;
    assert (b - 1) * a == a * b - a;
    DivModUnique(x, a * b, q, r);
  }

  /** Division of a two-digit number by a multiple of its base. */
  lemma ScaledDivMod(h: int, l: int, a: int, b: int)
    requires a > 0 && b > 0 && 0 <= l < b
    ensures a * b > 0
    ensures (h * b + l) / (a * b) == h / a
    ensures (h * b + l) % (a * b) == (h % a) * b + l
  {
    var q, r := h / a, h % a;
    assert h * b == q * (a * b) + r * b by {
      assert h == q * a + r;
    }
    assert (a - 1 - r) * b >= 0;
    assert (a - 1 - r) * b == a * b - b - r * b;
    DivModUnique(h * b + l, a * b, q, r * b + l);
  }

  lemma ScaledMod(x: int, a: int, b: int, c: int)
    requires a > 0 && b > 0 && c == a * b
    ensures c > 0 && x * b % c == x % a * b
  {
    ScaledDivMod(x, 0, a, b);
  }

  /** Equal remainders mean that the difference is a multiple. */
  lemma ModEqual(x: int, y: int, d: int) returns (k: int)
    requires d > 0 && x % d == y % d
    ensures x == y + k * d
  {
    k := x / d - y / d;
    assert x == (x / d) * d + x % d;
    assert y == (y / d) * d + y % d;
    assert k * d == (x / d) * d - (y / d) * d;
  }

  // ----- Bitwise operations -----

  function And(a: nat, b: nat): nat {
    if a == 0 || b == 0 then 0
    else (if a % 2 == 1 && b % 2 == 1 then 1 else 0) + 2 * And(a / 2, b / 2)
  }

  function Or(a: nat, b: nat): nat {
    if a == 0 && b == 0 then 0
    else (if a % 2 == 1 || b % 2 == 1 then 1 else 0) + 2 * Or(a / 2, b / 2)
  }

  lemma {:induction false} AndIsSmall(a: nat, b: nat)
    ensures And(a, b) <= a && And(a, b) <= b
  {
    if a > 0 && b > 0 {
      AndIsSmall(a / 2, b / 2);
    }
  }

  lemma {:induction false} OrIsSmall(a: nat, b: nat, k: nat)
    requires a < Pow2(k) && b < Pow2(k)
    ensures Or(a, b) < Pow2(k)
    decreases k
  {
    if k > 0 {
      OrIsSmall(a / 2, b / 2, k - 1);
    }
  }

  /** The remainder by twice a number, from the half and the lowest bit. */
  lemma ModDouble(x: nat, p: nat)
    requires p >= 1
    ensures x % (2 * p) == 2 * (x / 2 % p) + x % 2
  {
    var h := x / 2;
    assert h == h / p * p + h % p;
    assert h / p * (2 * p) == 2 * (h / p * p);
    DivModUnique(x, 2 * p, h / p, 2 * (h % p) + x % 2);
  }

  /** A mask of ones keeps the remainder. */
  lemma {:induction false} AndMask(x: nat, k: nat)
    ensures And(x, Pow2(k) - 1) == x % Pow2(k)
    decreases k
  {
    if k > 0 {
      var p := Pow2(k - 1);
      AndMask(x / 2, k - 1);
      ModDouble(x, p);
      assert (2 * p - 1) / 2 == p - 1 && (2 * p - 1) % 2 == 1;
    }
  }

  /** One bit is set in a number below twice its place exactly when the number reaches the place. */
  lemma {:induction false} AndBit(x: nat, k: nat)
    requires x < 2 * Pow2(k)
    ensures And(x, Pow2(k)) == 0 <==> x < Pow2(k)
    decreases k
  {
    if k > 0 && x > 0 {
      assert Pow2(k) / 2 == Pow2(k - 1);
      AndBit(x / 2, k - 1);
    }
  }

  lemma {:induction false} OrZero(a: nat)
    ensures Or(a, 0) == a && Or(0, a) == a
  {
    if a > 0 {
      OrZero(a / 2);
    }
  }

  lemma {:induction false} OrIsZero(a: nat, b: nat)
    ensures Or(a, b) == 0 <==> a == 0 && b == 0
  {
    if a > 0 || b > 0 {
      OrIsZero(a / 2, b / 2);
    }
  }

  /** Numbers without a common bit are added. */
  lemma {:induction false} OrDisjoint(a: nat, b: nat, k: nat)
    requires b < Pow2(k)
    ensures Or(a * Pow2(k), b) == a * Pow2(k) + b && Or(b, a * Pow2(k)) == a * Pow2(k) + b
    decreases k
  {
    if k == 0 {
      OrZero(a * Pow2(k));
    } else {
      var p := a * Pow2(k - 1);
      assert a * Pow2(k) == 2 * p;
      OrDisjoint(a, b / 2, k - 1);
      assert (2 * p) / 2 == p && (2 * p) % 2 == 0;
    }
  }
}
