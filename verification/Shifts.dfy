/** Shifts of a number of any width up to 64 bits held as two 32-bit parts. */
module Shifts {
  import opened Bits

  const PART_PRECISION: nat := 32

  /** Each part is a 32-bit unsigned integer. */
  newtype Part = x: int | 0 <= x < 0x1_0000_0000

  datatype Num = Num(high: Part, low: Part, unsignedp: bool, overflow: bool)

  // ----- The operators of C on parts -----

  /** `x << k`: the bits pushed out at the top are lost. */
  function ShiftUp(x: Part, k: nat): Part
    requires k < PART_PRECISION
  {
    (x as int * Pow2(k) % W) as Part
  }

  /** `x >> k` */
  function ShiftDown(x: Part, k: nat): Part
    requires k < PART_PRECISION
  {
    QuotientIsPart(x, Pow2(k));
    (x as int / Pow2(k)) as Part
  }

  function BitAnd(x: Part, y: Part): Part {
    AndIsSmall(x as nat, y as nat);
    And(x as nat, y as nat) as Part
  }

  function BitOr(x: Part, y: Part): Part {
    Pow2Words();
    OrIsSmall(x as nat, y as nat, 32);
    Or(x as nat, y as nat) as Part
  }

  lemma QuotientIsPart(x: Part, d: nat)
    requires d >= 1
    ensures 0 <= x as int / d < W
  {
    var q := x as int / d;
    assert x as int == q * d + x as int % d;
    if q > 0 {
      LargeMultiple(d, q);
    }
  }

  // ----- What a number means -----

  function Val(num: Num): nat {
    num.high as nat * W + num.low as nat
  }

  /** The bits above the width are clear. */
  ghost predicate Trimmed(num: Num, precision: nat) {
    Val(num) < Pow2(precision)
  }

  /** The number as an integer: in two's complement unless it is unsigned. */
  ghost function Meaning(num: Num, precision: nat): int
    requires precision >= 1
  {
    if num.unsignedp || Val(num) < Pow2(precision - 1) then Val(num)
    else Val(num) - Pow2(precision)
  }

  /** Representable as a signed integer of the width. */
  ghost predicate Representable(x: int, precision: nat)
    requires precision >= 1
  {
    -(Pow2(precision - 1) as int) <= x < Pow2(precision - 1)
  }

  // ----- The bits of one part -----

  lemma Split(k: nat)
    requires k <= 32
    ensures W == Pow2(k) * Pow2(32 - k) == Pow2(32 - k) * Pow2(k)
  {
    Pow2Words();
    Pow2Add(k, 32 - k);
    Pow2Add(32 - k, k);
  }

  lemma ShiftUpKeepsLow(x: Part, k: nat)
    requires k < 32
    ensures ShiftUp(x, k) as int == x as int % Pow2(32 - k) * Pow2(k)
  {
    Split(k);
    var q, t := Pow2(k), Pow2(32 - k);
    ScaledMod(x as int, t, q, W);
  }

  lemma ShiftDownIsSmall(x: Part, k: nat)
    requires k < 32
    ensures x as int / Pow2(k) < Pow2(32 - k)
  {
    Split(k);
    QuotientIsBelow(x as int, Pow2(k), Pow2(32 - k));
  }

  lemma QuotientIsBelow(x: int, q: int, t: int)
    requires q > 0 && x < q * t
    ensures x / q < t
  {
    var k := x / q - t + 1;
    assert k * q == x / q * q - q * t + q;
    if k >= 1 {
      LargeMultiple(k, q);
    }
  }

  /** Two parts side by side, `b` above `a`, moved down by `n` bits: what lands in the lower part. */
  lemma Funnel(a: Part, b: Part, n: nat)
    requires 0 < n < 32
    ensures BitOr(ShiftDown(a, n), ShiftUp(b, 32 - n)) as int == b as int % Pow2(n) * Pow2(32 - n) + a as int / Pow2(n)
    ensures BitOr(ShiftUp(b, 32 - n), ShiftDown(a, n)) as int == b as int % Pow2(n) * Pow2(32 - n) + a as int / Pow2(n)
  {
    ShiftUpKeepsLow(b, 32 - n);
    ShiftDownIsSmall(a, n);
    var up, down := b as int % Pow2(n), a as int / Pow2(n);
    OrDisjoint(up, down, 32 - n);
  }

  lemma BitOf(k: nat)
    requires k < 32
    ensures ShiftUp(1, k) as int == Pow2(k) < W
  {
    Pow2Words();
    Pow2GrowsStrictly(k, 32);
  }

  /** Masking with `(1 << k) - 1` keeps the lowest `k` bits. */
  lemma MaskKeepsLow(x: Part, k: nat)
    requires k < 32
    ensures ShiftUp(1, k) >= 1
    ensures BitAnd(x, ShiftUp(1, k) - 1) as int == x as int % Pow2(k)
  {
    BitOf(k);
    AndMask(x as int, k);
  }

  lemma OnesBelow(q: int, t: int, w: int)
    requires q > 0 && t > 0 && w == q * t
    ensures (w - 1) % t == t - 1 && (t - 1) * q == w - q
  {
    assert w - 1 == (q - 1) * t + (t - 1);
    DivModUnique(w - 1, t, q - 1, t - 1);
  }

  /** Sign extension of one part: all the bits from `k` up are set. */
  lemma SetAbove(x: Part, k: nat)
    requires k < 32 && x as int < Pow2(k)
    ensures BitOr(x, ShiftUp(0xFFFF_FFFF, k)) as int == W - Pow2(k) + x as int
  {
    Split(k);
    var t, q := Pow2(32 - k), Pow2(k);
    ShiftUpKeepsLow(0xFFFF_FFFF, k);
    OnesBelow(q, t, W);
    OrDisjoint(t - 1, x as int, k);
  }

  lemma SetNoneAbove(x: Part, k: nat)
    requires k < 32
    ensures BitOr(x, ShiftUp(0, k)) == x
  {
    OrZero(x as int);
  }

  // ----- The sign -----

  /** The width of the upper part of a number that needs one. */
  lemma WideWord(precision: nat)
    requires 32 <= precision
    ensures Pow2(precision) == Pow2(precision - 32) * W
  {
    Pow2Words();
    Pow2Add(precision - 32, 32);
  }

  lemma NarrowWord(precision: nat)
    requires precision <= 32
    ensures Pow2(precision) <= W
  {
    Pow2Words();
    Pow2Grows(precision, 32);
  }

  /** A two-part number is below a multiple of a word exactly when its upper part is. */
  lemma BelowWords(high: int, low: int, k: int)
    requires 0 <= low < W
    ensures high * W + low < k * W <==> high < k
  {
  }

  /** The sign bit of a trimmed number is clear exactly when the number is in the lower half. */
  function NumPositive(num: Num, precision: nat): (positive: bool)
    requires 1 <= precision <= 64
    ensures Trimmed(num, precision) ==> (positive <==> Val(num) < Pow2(precision - 1))
  {
    SignBit(num, precision);
    if precision > PART_PRECISION then
      BitAnd(num.high, ShiftUp(1, precision - PART_PRECISION - 1)) == 0
    else
      BitAnd(num.low, ShiftUp(1, precision - 1)) == 0
  }

  lemma SignBit(num: Num, precision: nat)
    requires 1 <= precision <= 64
    ensures Trimmed(num, precision) && precision > 32 ==>
              (BitAnd(num.high, ShiftUp(1, precision - 33)) == 0 <==> Val(num) < Pow2(precision - 1))
    ensures Trimmed(num, precision) && precision <= 32 ==>
              (BitAnd(num.low, ShiftUp(1, precision - 1)) == 0 <==> Val(num) < Pow2(precision - 1))
  {
    if Trimmed(num, precision) {
      if precision > 32 {
        WideWord(precision);
        WideWord(precision - 1);
        BelowWords(num.high as int, num.low as int, Pow2(precision - 32));
        BelowWords(num.high as int, num.low as int, Pow2(precision - 33));
        BitOf(precision - 33);
        AndBit(num.high as int, precision - 33);
      } else {
        NarrowWord(precision);
        BelowWords(num.high as int, num.low as int, 1);
        BitOf(precision - 1);
        AndBit(num.low as int, precision - 1);
      }
    }
  }

  // ----- Trimming -----

  /** Trimming keeps the remainder by the width, for every width. */
  method NumTrim(num0: Num, precision0: nat) returns (num: Num)
    ensures Val(num) == Val(num0) % Pow2(precision0)
    ensures num.unsignedp == num0.unsignedp && num.overflow == num0.overflow
  {
    num := num0;
    var precision := precision0;
    TrimmedParts(num0, precision0);
    if precision > PART_PRECISION {
      precision := precision - PART_PRECISION;
      if precision < PART_PRECISION {
        MaskKeepsLow(num.high, precision);
        num := num.(high := BitAnd(num.high, ShiftUp(1, precision) - 1));
      }
    } else {
      if precision < PART_PRECISION {
        MaskKeepsLow(num.low, precision);
        num := num.(low := BitAnd(num.low, ShiftUp(1, precision) - 1));
      }
      num := num.(high := 0);
    }
  }

  /** A multiple of a multiple of the divisor does not change the remainder. */
  lemma ModAbove(x: int, k: int, u: int, t: int, p: int)
    requires p > 0 && u == t * p
    ensures (k * u + x) % p == x % p
  {
    assert k * u == k * t * p;
    ModPlus(x, k * t, p);
  }

  lemma TrimmedParts(num: Num, precision: nat)
    ensures 64 <= precision ==> Val(num) % Pow2(precision) == Val(num)
    ensures 32 <= precision < 64 ==>
              Val(num) % Pow2(precision) == num.high as int % Pow2(precision - 32) * W + num.low as int
    ensures precision == 32 ==> Val(num) % Pow2(precision) == num.low as int
    ensures precision < 32 ==> Val(num) % Pow2(precision) == num.low as int % Pow2(precision)
  {
    if precision >= 64 {
      Pow2Words();
      Pow2Grows(64, precision);
      DivModUnique(Val(num), Pow2(precision), 0, Val(num));
    } else if precision >= 32 {
      WideWord(precision);
      ScaledDivMod(num.high as int, num.low as int, Pow2(precision - 32), W);
    } else {
      Split(precision);
      ModAbove(num.low as int, num.high as int, W, Pow2(32 - precision), Pow2(precision));
    }
  }

  // ----- Shifting right -----

  /** The integer that two parts stand for below endlessly many copies of the sign. */
  ghost function Extended(sign: int, num: Num): int {
    sign * (W * W) + Val(num)
  }

  /** The part whose bits are all copies of the sign. */
  ghost predicate IsSign(sign: int, mask: Part) {
    (sign == 0 && mask == 0) || (sign == -1 && mask == 0xFFFF_FFFF)
  }

  /** What the sign extension step has to produce. */
  lemma ExtendSign(num: Num, precision: nat, sign: int, mask: Part)
    requires 1 <= precision <= 64 && Trimmed(num, precision) && IsSign(sign, mask)
    requires sign == if num.unsignedp || Val(num) < Pow2(precision - 1) then 0 else -1
    ensures precision < 32 ==>
              Extended(sign, num.(high := mask, low := BitOr(num.low, ShiftUp(mask, precision)))) == Meaning(num, precision)
    ensures 32 <= precision < 64 ==>
              Extended(sign, num.(high := BitOr(num.high, ShiftUp(mask, precision - 32)))) == Meaning(num, precision)
    ensures precision == 64 ==> Extended(sign, num) == Meaning(num, precision)
  {
    if precision < 32 {
      NarrowWord(precision);
      BelowWords(num.high as int, num.low as int, 1);
      if sign == 0 {
        SetNoneAbove(num.low, precision);
      } else {
        SetAbove(num.low, precision);
      }
    } else if precision < 64 {
      WideWord(precision);
      BelowWords(num.high as int, num.low as int, Pow2(precision - 32));
      if sign == 0 {
        SetNoneAbove(num.high, precision - 32);
      } else {
        SetAbove(num.high, precision - 32);
      }
    } else {
      Pow2Words();
    }
  }

  /** Dropping the lower part divides by a word. */
  lemma WordDown(sign: int, mask: Part, num: Num)
    requires IsSign(sign, mask)
    ensures Extended(sign, num.(low := num.high, high := mask)) == Extended(sign, num) / W
  {
    DivModUnique(Extended(sign, num), W, sign * W + num.high as int, num.low as int);
  }

  lemma Regroup(a: int, q: int, r: int, t: int, w: int)
    requires w == q * t
    ensures (a * q + r) * w == (a * w + r * t) * q
  {
    assert (a * q + r) * w == a * w * q + r * w;
    assert r * w == r * t * q;
  }

  /** One digit moves down: its low bits go to the digit below. */
  lemma DigitDown(high: int, low: int, q: int, t: int, w: int)
    requires q > 0 && w == q * t
    ensures (high * w + low) / q == high / q * w + high % q * t + low / q
  {
    Regroup(high / q, q, high % q, t, w);
    var x := high / q * w + high % q * t;
    assert high * w == x * q;
    assert (x + low / q) * q == x * q + low / q * q;
    DivModUnique(high * w + low, q, x + low / q, low % q);
  }

  /** The sign moves down into the upper part. */
  lemma SignDown(sign: int, m: int, high: int, q: int, t: int, w: int)
    requires q > 0 && w == q * t
    requires (sign == 0 && m == 0) || (sign == -1 && m == q - 1)
    ensures (sign * w + high) / q == sign * w + m * t + high / q
    ensures (sign * w + high) % q == high % q
  {
    assert sign * w + m * t == sign * t by {
      assert (sign * q + m) * t == sign * (q * t) + m * t;
    }
    assert sign * w == sign * t * q;
    DivPlus(high, sign * t, q);
    ModPlus(high, sign * t, q);
  }

  lemma Undistributed(sign: int, x: int, w: int)
    ensures sign * (w * w) + x * w == (sign * w + x) * w
  {
  }

  lemma DownArithmetic(sign: int, m: int, high: int, low: int, q: int, t: int, w: int)
    requires q > 0 && w == q * t
    requires (sign == 0 && m == 0) || (sign == -1 && m == q - 1)
    ensures (sign * (w * w) + (high * w + low)) / q
         == sign * (w * w) + ((m * t + high / q) * w + (high % q * t + low / q))
  {
    SignDown(sign, m, high, q, t, w);
    DigitDown(sign * w + high, low, q, t, w);
    Undistributed(sign, high, w);
    Undistributed(sign, m * t + high / q, w);
  }

  lemma SignBits(sign: int, mask: Part, n: nat)
    requires IsSign(sign, mask) && 0 < n < 32
    ensures mask as int % Pow2(n) == if sign == 0 then 0 else Pow2(n) - 1
  {
    if sign == -1 {
      Split(n);
      var q, t := Pow2(n), Pow2(32 - n);
      OnesBelow(t, q, W);
    }
  }

  /** Moving the bits of both parts down by less than a word. */
  lemma BitsDown(sign: int, mask: Part, num: Num, n: nat)
    requires IsSign(sign, mask) && 0 < n < 32
    ensures Extended(sign, num.(low := BitOr(ShiftDown(num.low, n), ShiftUp(num.high, 32 - n)),
                                high := BitOr(ShiftDown(num.high, n), ShiftUp(mask, 32 - n))))
         == Extended(sign, num) / Pow2(n)
  {
    Funnel(num.low, num.high, n);
    Funnel(num.high, mask, n);
    Split(n);
    var q, t := Pow2(n), Pow2(32 - n);
    SignBits(sign, mask, n);
    DownArithmetic(sign, mask as int % q, num.high as int, num.low as int, q, t, W);
  }

  /** Bits above the width do not matter to the remainder by it. */
  lemma SignIsAbove(sign: int, num: Num, precision: nat)
    requires precision <= 64
    ensures Val(num) % Pow2(precision) == Extended(sign, num) % Pow2(precision)
  {
    Pow2Words();
    Pow2Add(64 - precision, precision);
    ModAbove(Val(num), sign, W * W, Pow2(64 - precision), Pow2(precision));
  }

  lemma MeaningIsBounded(num: Num, precision: nat)
    requires 1 <= precision && Trimmed(num, precision)
    ensures Pow2(precision) == 2 * Pow2(precision - 1)
    ensures num.unsignedp ==> 0 <= Meaning(num, precision) < Pow2(precision)
    ensures !num.unsignedp ==> Representable(Meaning(num, precision), precision)
    ensures Meaning(num, precision) % Pow2(precision) == Val(num)
  {
    var p := Pow2(precision);
    DivModUnique(Val(num) - p, p, -1, Val(num));
    DivModUnique(Val(num), p, 0, Val(num));
  }

  /** A shift by the whole width or more leaves only the sign. */
  lemma OnlySign(num: Num, precision: nat, n: nat, sign: int, mask: Part)
    requires 1 <= precision <= n && Trimmed(num, precision) && IsSign(sign, mask)
    requires sign == if num.unsignedp || Val(num) < Pow2(precision - 1) then 0 else -1
    ensures Extended(sign, num.(high := mask, low := mask)) == Meaning(num, precision) / Pow2(n)
  {
    MeaningIsBounded(num, precision);
    Pow2Grows(precision, n);
    var x := Meaning(num, precision);
    DivModUnique(x, Pow2(n), sign, x - sign * Pow2(n));
  }

  /** The two parts moved down by less than their joint width, with copies of the sign coming in above. */
  method ShiftParts(num0: Num, signMask: Part, n0: nat, ghost sign: int) returns (num: Num)
    requires n0 < 64 && IsSign(sign, signMask)
    ensures Extended(sign, num) == Extended(sign, num0) / Pow2(n0)
    ensures num.unsignedp == num0.unsignedp
  {
    num := num0;
    var n := n0;
    if n >= PART_PRECISION {
      n := n - PART_PRECISION;
      WordDown(sign, signMask, num);
      SplitShift(Extended(sign, num), n);
      num := num.(low := num.high, high := signMask);
    }
    assert Extended(sign, num) / Pow2(n) == Extended(sign, num0) / Pow2(n0) && num.unsignedp == num0.unsignedp;
    if n != 0 {
      BitsDown(sign, signMask, num, n);
      num := num.(low := BitOr(ShiftDown(num.low, n), ShiftUp(num.high, PART_PRECISION - n)),
                  high := BitOr(ShiftDown(num.high, n), ShiftUp(signMask, PART_PRECISION - n)));
    }
  }

  /** The part to fill with, and the sign it stands for. */
  method SignMask(num: Num, precision: nat) returns (signMask: Part, ghost sign: int)
    requires 1 <= precision <= 64 && Trimmed(num, precision)
    ensures IsSign(sign, signMask)
    ensures sign == if num.unsignedp || Val(num) < Pow2(precision - 1) then 0 else -1
  {
    var x := NumPositive(num, precision);
    if num.unsignedp || x {
      signMask, sign := 0, 0;
    } else {
      signMask, sign := 0xFFFF_FFFF, -1;
    }
  }

  /**
   * A right shift divides by a power of two, rounding down, whatever the width, the
   * sign and the shift count.
   */
  method NumRShift(num0: Num, precision: nat, n: nat) returns (num: Num)
    requires 1 <= precision <= 64 && Trimmed(num0, precision)
    ensures Val(num) == Meaning(num0, precision) / Pow2(n) % Pow2(precision)
    ensures num.unsignedp == num0.unsignedp && !num.overflow
  {
    num := num0;
    var signMask, sign := SignMask(num, precision);
    if n >= precision {
      OnlySign(num, precision, n, sign, signMask);
      num := num.(high := signMask, low := signMask);
    } else {
      ExtendSign(num, precision, sign, signMask);
      if precision < PART_PRECISION {
        num := num.(high := signMask, low := BitOr(num.low, ShiftUp(signMask, precision)));
      } else if precision < 2 * PART_PRECISION {
        num := num.(high := BitOr(num.high, ShiftUp(signMask, precision - PART_PRECISION)));
      }
      num := ShiftParts(num, signMask, n, sign);
    }
    SignIsAbove(sign, num, precision);
    num := NumTrim(num, precision);
    num := num.(overflow := false);
  }

  lemma SplitShift(x: int, n: nat)
    ensures x / W / Pow2(n) == x / Pow2(n + 32)
  {
    Pow2Words();
    Pow2Add(32, n);
    DivDiv(x, W, Pow2(n));
  }

  // ----- Shifting left -----

  lemma UpArithmetic(high: int, low: int, q: int, t: int, w: int)
    requires q > 0 && t > 0 && w == q * t
    ensures (high * w + low) * q
         == high / t * (w * w) + ((high % t * q + low / t) * w + low % t * q)
  {
    DigitUp(high, q, t, w);
    DigitUp(low, q, t, w);
    assert (high * w + low) * q == high * q * w + low * q;
    Undistributed(high / t, high % t * q, w);
    Distributed(high % t * q, low / t, w);
  }

  lemma Distributed(x: int, y: int, w: int)
    ensures (x + y) * w == x * w + y * w
  {
  }

  /** One digit moves up: its high bits go to the digit above. */
  lemma DigitUp(x: int, q: int, t: int, w: int)
    requires t > 0 && w == q * t
    ensures x * q == x / t * w + x % t * q
  {
    assert (x / t * t + x % t) * q == x / t * (t * q) + x % t * q;
  }

  /** Moving the bits of both parts up by less than a word. */
  lemma BitsUp(num: Num, m: nat)
    requires 0 < m < 32
    ensures Val(num) * Pow2(m) == num.high as int / Pow2(32 - m) * (W * W)
              + Val(num.(high := BitOr(ShiftUp(num.high, m), ShiftDown(num.low, 32 - m)), low := ShiftUp(num.low, m)))
  {
    Funnel(num.low, num.high, 32 - m);
    ShiftUpKeepsLow(num.low, m);
    Split(m);
    var q, t := Pow2(m), Pow2(32 - m);
    UpArithmetic(num.high as int, num.low as int, q, t, W);
  }

  /** The two parts moved up by less than their joint width; `k` is what went out at the top. */
  method PartsUp(num0: Num, n: nat) returns (num: Num, ghost k: int)
    requires n < 64
    ensures Val(num0) * Pow2(n) == k * (W * W) + Val(num)
    ensures num.unsignedp == num0.unsignedp
  {
    num, k := num0, 0;
    var m := n;
    if m >= PART_PRECISION {
      m := m - PART_PRECISION;
      k := WordUp(num, m);
      num := num.(high := num.low, low := 0);
    }
    assert Val(num0) * Pow2(n) == k * (W * W) + Val(num) * Pow2(m) && num.unsignedp == num0.unsignedp;
    if m != 0 {
      BitsUp(num, m);
      k := k + num.high as int / Pow2(32 - m);
      num := num.(high := BitOr(ShiftUp(num.high, m), ShiftDown(num.low, PART_PRECISION - m)),
                  low := ShiftUp(num.low, m));
    }
  }

  /** The lower part becomes the upper one, and the rest of the shift is still to be done. */
  lemma WordUp(num: Num, m: nat) returns (k: int)
    ensures Val(num) * Pow2(m + 32) == k * (W * W) + Val(num.(high := num.low, low := 0)) * Pow2(m)
  {
    k := num.high as int * Pow2(m);
    WideWord(m + 32);
    assert Val(num) * W == num.high as int * (W * W) + Val(num.(high := num.low, low := 0));
    Scale(Val(num), W, num.high as int, W * W, Val(num.(high := num.low, low := 0)), Pow2(m));
  }

  lemma Scale(x: int, w: int, k: int, u: int, y: int, q: int)
    requires x * w == k * u + y
    ensures x * (q * w) == k * q * u + y * q
  {
    assert x * (q * w) == (x * w) * q;
  }

  // ----- Signed overflow -----

  /** Signed integers of one width that agree modulo it are equal. */
  lemma SignedUnique(x: int, y: int, h: int)
    requires h > 0 && -h <= x < h && -h <= y < h && x % (2 * h) == y % (2 * h)
    ensures x == y
  {
    var k := ModEqual(x, y, 2 * h);
    SmallMultiple(k, 2 * h);
  }

  lemma QuotientIsSigned(r: int, q: int, h: int)
    requires h > 0 && q > 0 && -h <= r < h
    ensures -h <= r / q < h
  {
    var d := r / q;
    assert r == d * q + r % q;
    assert q * (-d - 1) == -(d * q) - q;
    if d >= h {
      LargeMultiple(q, d);
    } else if d < -h {
      LargeMultiple(q, -d - 1);
    }
  }

  /**
   * Shifting the truncated product `r` of `s` and `q` back gives `s` modulo the width
   * exactly when nothing was truncated.
   */
  lemma BackIffKept(s: int, r: int, q: int, h: int)
    requires h > 0 && -h <= s < h && -h <= r < h && 0 < q < 2 * h
    requires r % (2 * h) == s * q % (2 * h)
    ensures r / q % (2 * h) == s % (2 * h) <==> -h <= s * q < h
    ensures -h <= s * q < h ==> r == s * q
  {
    if -h <= s * q < h {
      SignedUnique(r, s * q, h);
      DivModUnique(r, q, s, 0);
    }
    if r / q % (2 * h) == s % (2 * h) {
      QuotientIsSigned(r, q, h);
      SignedUnique(r / q, s, h);
      var k := ModEqual(r, s * q, 2 * h);
      assert r == s * q + r % q;
      SmallMultiple(k, 2 * h);
    }
  }

  lemma ModTimes(x: int, y: int, q: int, p: int)
    requires p > 0 && x % p == y % p
    ensures x * q % p == y * q % p
  {
    var k := ModEqual(x, y, p);
    assert x * q == y * q + (k * q) * p;
    ModPlus(y * q, k * q, p);
  }

  lemma OverflowIsLoss(orig: Num, num: Num, maybeOrig: Num, precision: nat, n: nat)
    requires 1 <= precision && n < precision && !orig.unsignedp && !num.unsignedp
    requires Trimmed(orig, precision) && Trimmed(num, precision)
    requires Val(num) == Val(orig) * Pow2(n) % Pow2(precision)
    requires Val(maybeOrig) == Meaning(num, precision) / Pow2(n) % Pow2(precision)
    ensures Val(maybeOrig) == Val(orig) <==> Representable(Meaning(orig, precision) * Pow2(n), precision)
    ensures Representable(Meaning(orig, precision) * Pow2(n), precision)
        ==> Meaning(num, precision) == Meaning(orig, precision) * Pow2(n)
  {
    MeaningIsBounded(orig, precision);
    MeaningIsBounded(num, precision);
    Pow2GrowsStrictly(n, precision);
    var s, r, q, h := Meaning(orig, precision), Meaning(num, precision), Pow2(n), Pow2(precision - 1);
    DivModUnique(Val(orig), 2 * h, 0, Val(orig));
    ModTimes(s, Val(orig), q, 2 * h);
    BackIffKept(s, r, q, h);
  }

  /** Two numbers are equal as soon as their values are. */
  lemma SameParts(a: Num, b: Num)
    ensures Val(a) == Val(b) <==> a.high == b.high && a.low == b.low
  {
    if Val(a) == Val(b) {
      OneQuotient(W, a.high as int, a.low as int, b.high as int, b.low as int);
    }
  }

  lemma ShiftedOut(num: Num, precision: nat, n: nat)
    requires 1 <= precision <= n && Trimmed(num, precision)
    ensures Val(num) * Pow2(n) % Pow2(precision) == 0
    ensures !num.unsignedp ==>
              (Representable(Meaning(num, precision) * Pow2(n), precision) <==> Val(num) == 0)
  {
    MultipleOfWidth(Val(num), precision, n);
    MeaningIsBounded(num, precision);
    Pow2Grows(precision, n);
    TooLarge(Meaning(num, precision), Pow2(n), Pow2(precision - 1));
  }

  lemma TooLarge(s: int, u: int, h: int)
    requires h > 0 && u >= 2 * h
    ensures -h <= s * u < h <==> s == 0
  {
    if s > 0 {
      LargeMultiple(s, u);
    } else if s < 0 {
      LargeMultiple(-s, u);
      assert (-s) * u == -(s * u);
    }
  }

  lemma MultipleOfWidth(x: int, precision: nat, n: nat)
    requires precision <= n
    ensures x * Pow2(n) % Pow2(precision) == 0
  {
    Pow2Add(n - precision, precision);
    MultipleOfMultiple(x, Pow2(n - precision), Pow2(precision));
  }

  lemma MultipleOfMultiple(x: int, y: int, p: int)
    requires p > 0
    ensures x * (y * p) % p == 0
  {
    assert x * (y * p) == x * y * p;
    DivModUnique(x * (y * p), p, x * y, 0);
  }

  /**
   * A left shift multiplies by a power of two modulo the width, and reports signed
   * overflow exactly when the true product does not fit.
   */
  method NumLShift(num0: Num, precision: nat, n: nat) returns (num: Num)
    requires 1 <= precision <= 64 && Trimmed(num0, precision)
    ensures Val(num) == Val(num0) * Pow2(n) % Pow2(precision)
    ensures num.unsignedp == num0.unsignedp
    ensures num.overflow <==> !num0.unsignedp && !Representable(Meaning(num0, precision) * Pow2(n), precision)
    ensures !num.unsignedp && !num.overflow ==> Meaning(num, precision) == Meaning(num0, precision) * Pow2(n)
  {
    num := num0;
    if n >= precision {
      ShiftedOut(num, precision, n);
      SameParts(num, num.(high := 0, low := 0));
      OrIsZero(num.low as nat, num.high as nat);
      num := num.(overflow := !num.unsignedp && !(BitOr(num.low, num.high) == 0));
      num := num.(high := 0, low := 0);
    } else {
      var orig := num;
      ghost var k;
      num, k := PartsUp(num, n);
      SignIsAbove(k, num, precision);
      num := NumTrim(num, precision);
      if num.unsignedp {
        num := num.(overflow := false);
      } else {
        var maybeOrig := NumRShift(num, precision, n);
        OverflowIsLoss(orig, num, maybeOrig, precision, n);
        SameParts(orig, maybeOrig);
        num := num.(overflow := !(orig.low == maybeOrig.low && orig.high == maybeOrig.high));
      }
    }
  }
}
