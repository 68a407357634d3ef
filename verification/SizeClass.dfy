/** From a request in bytes to a level.

    `next_power_of_two` smears the highest one bit of a word over all the lower ones in six or-shift steps
    and adds one; `power_of_two` shifts the exponent out of a power of two; the level of a request is the
    exponent of the rounded request divided by the unit.

    Words are numbers below 2^64; `Or` and `And` are the bitwise operations on them.  Rounding wraps to 0
    above 2^63, and the lemmas at the end say exactly which requests that spoils.
*/
module SizeClass {
  import opened Dyadic

  const WORD: nat := 0x1_0000_0000_0000_0000
  const HALF: nat := 0x8000_0000_0000_0000

  function Or(a: nat, b: nat): nat {
    if a == 0 && b == 0 then 0
    else 2 * Or(a / 2, b / 2) + if a % 2 == 1 || b % 2 == 1 then 1 else 0
  }

  function And(a: nat, b: nat): nat {
    if a == 0 || b == 0 then 0
    else 2 * And(a / 2, b / 2) + if a % 2 == 1 && b % 2 == 1 then 1 else 0
  }

  predicate IsPow2(n: nat) { n != 0 && And(n, n - 1) == 0 }

  lemma {:induction false} AndSelf(n: nat)
    ensures And(n, n) == n
  {
    if n > 0 { AndSelf(n / 2); }
  }

  /** The bit trick tells powers of two. */
  lemma {:induction false} IsPow2Means(n: nat)
    ensures IsPow2(n) <==> exists k: nat :: n == Pow2(k)
  {
    if n % 2 == 1 {
      AndSelf(n / 2);
      assert n > 1 ==> And(n, n - 1) == 2 * And(n / 2, n / 2);
      if n == 1 { assert n == Pow2(0); }
      forall k: nat ensures n > 1 ==> n != Pow2(k) {}
    } else if n > 0 {
      IsPow2Means(n / 2);
      assert (n - 1) / 2 == n / 2 - 1;
      assert And(n, n - 1) == 2 * And(n / 2, n / 2 - 1);
      if IsPow2(n) {
        var k: nat :| n / 2 == Pow2(k);
        assert n == Pow2(k + 1);
      }
      if k: nat :| n == Pow2(k) {
        var j := k - 1;
        assert n / 2 == Pow2(j);
      }
    } else {
      forall k: nat ensures n != Pow2(k) {}
    }
  }

  // ---------------------------------------------------------------- bit smearing

  lemma {:induction false} OrBounds(a: nat, b: nat)
    ensures Or(a, b) >= a && Or(a, b) >= b
    decreases a + b
  {
    if a != 0 || b != 0 { OrBounds(a / 2, b / 2); }
  }

  lemma {:induction false} OrBelow(a: nat, b: nat, h: nat)
    requires a < Pow2(h) && b < Pow2(h)
    ensures Or(a, b) < Pow2(h)
    decreases h
  {
    if h > 0 { OrBelow(a / 2, b / 2, h - 1); }
  }

  /** Its top `t` of `h` bits are ones. */
  predicate TopOnes(n: nat, h: nat, t: nat)
    requires t <= h
  {
    Pow2(h) - Pow2(h - t) <= n < Pow2(h)
  }

  /** `x * 2^k + r` with `r < 2^k` keeps its upper bits under `Or` with a number below `2^k`. */
  lemma {:induction false} OrLow(n: nat, y: nat, k: nat)
    requires y < Pow2(k)
    ensures Or(n, y) >= Shl(Shr(n, k), k) + y
    decreases k
  {
    if k == 0 {
      OrBounds(n, y);
    } else {
      OrLow(n / 2, y / 2, k - 1);
      ShrHalf(n, k);
      if n != 0 || y != 0 {} else { ShlShrZero(k); }
    }
  }

  lemma {:induction false} ShrHalf(n: nat, k: nat)
    requires k > 0
    ensures Shr(n, k) == Shr(n / 2, k - 1)
  {
    if k > 1 { ShrHalf(n, k - 1); }
  }

  lemma {:induction false} ShlShrZero(k: nat)
    ensures Shr(0, k) == 0 && Shl(0, k) == 0
  {
    if k > 0 { ShlShrZero(k - 1); }
  }

  lemma {:induction false} ShlSum(a: nat, b: nat, k: nat)
    ensures Shl(a + b, k) == Shl(a, k) + Shl(b, k)
  {
    if k > 0 { ShlSum(a, b, k - 1); }
  }

  lemma {:induction false} ShlPow2(t: nat, k: nat)
    ensures Shl(Pow2(t), k) == Pow2(t + k)
  {
    if k > 0 { ShlPow2(t, k - 1); }
  }

  lemma ShrAtLeast(n: nat, c: nat, k: nat)
    requires n >= Shl(c, k)
    ensures Shr(n, k) >= c
  {
    ShrBounds(n, k);
    if Shr(n, k) < c { ShlMono(Shr(n, k), c, k); }
  }

  /** `2^(t+k) - 2^(u+k)` is `2^t - 2^u` shifted by `k`. */
  lemma ShlGap(t: nat, u: nat, k: nat)
    requires u <= t
    ensures Pow2(u) <= Pow2(t) && Shl(Pow2(t) - Pow2(u), k) == Pow2(t + k) - Pow2(u + k)
  {
    Pow2Mono(u, t);
    ShlPow2(t, k);
    ShlPow2(u, k);
    ShlSum(Pow2(t) - Pow2(u), Pow2(u), k);
  }

  /** The sum of what the two operands of a smearing step contribute. */
  lemma SmearBounds(n: nat, h: nat, t: nat)
    requires t <= h && n < Pow2(h)
    ensures Shl(Shr(n, h - t), h - t) + Shr(n, t) <= Or(n, Shr(n, t)) < Pow2(h)
  {
    ShrRange(n, t, h);
    OrLow(n, Shr(n, t), h - t);
    OrBelow(n, Shr(n, t), h) by { Pow2Mono(h - t, h); }
  }

  /** The upper part keeps its ones. */
  lemma SmearUpper(n: nat, h: nat, t: nat)
    requires t <= h && TopOnes(n, h, t)
    ensures Shl(Shr(n, h - t), h - t) >= Pow2(h) - Pow2(h - t)
  {
    var k := h - t;
    ShlGap(t, 0, k);
    ShrAtLeast(n, Pow2(t) - 1, k);
    ShlAtLeast(Pow2(t) - 1, Shr(n, k), k);
  }

  /** And the shifted operand brings the next `t` ones, or all that are missing. */
  lemma SmearLower(n: nat, h: nat, t: nat)
    requires t <= h && TopOnes(n, h, t)
    ensures Shr(n, t) >= Pow2(h - t) - if 2 * t <= h then Pow2(h - 2 * t) else 1
  {
    var k := h - t;
    if 2 * t <= h {
      ShlGap(k, h - 2 * t, t);
      ShrAtLeast(n, Pow2(k) - Pow2(h - 2 * t), t);
    } else {
      Pow2Mono(k, t);
      ShlGap(k, 0, t);
      ShrAtLeast(n, Pow2(k) - 1, t);
    }
  }

  /** One smearing step doubles the run of ones at the top. */
  lemma SmearStep(n: nat, h: nat, t: nat)
    requires t <= h && TopOnes(n, h, t)
    ensures TopOnes(Or(n, Shr(n, t)), h, if 2 * t <= h then 2 * t else h)
  {
    SmearBounds(n, h, t);
    SmearUpper(n, h, t);
    SmearLower(n, h, t);
  }

  lemma ShlAtLeast(a: nat, b: nat, k: nat)
    requires a <= b
    ensures Shl(a, k) <= Shl(b, k)
  {
    if a < b { ShlMono(a, b, k); }
  }

  // ---------------------------------------------------------------- the size helpers

  /** The least `k` with `2^k >= n`. */
  function CeilLog(n: nat): (k: nat)
    ensures Pow2(k) >= n
    ensures k > 0 ==> Pow2(k - 1) < n
  {
    if n <= 1 then 0 else 1 + CeilLog((n + 1) / 2)
  }

  lemma CeilLogIsLeast(n: nat, j: nat)
    ensures CeilLog(n) <= j <==> Pow2(j) >= n
  {
    var k := CeilLog(n);
    if j < k { Pow2Mono(j, k - 1); } else { Pow2Mono(k, j); }
  }

  lemma LogUnique(n: nat, j: nat, k: nat)
    requires Pow2(j) >= n && (j > 0 ==> Pow2(j - 1) < n)
    requires Pow2(k) >= n && (k > 0 ==> Pow2(k - 1) < n)
    ensures j == k
  {
    if j < k { Pow2Mono(j, k - 1); }
    if k < j { Pow2Mono(k, j - 1); }
  }

  lemma CeilLogOfPow2(k: nat)
    ensures CeilLog(Pow2(k)) == k
  {
    var n := Pow2(k);
    LogUnique(n, CeilLog(n), k);
  }

  /** `next_power_of_two`: the least power of two that is at least `n`, unless that needs a 65th bit. */
  method NextPowerOfTwo(size: nat) returns (r: nat)
    requires size < WORD
    ensures r == if size <= HALF then Pow2(CeilLog(size)) else 0
  {
    IsPow2Means(size);
    LogOfWord(size);
    if IsPow2(size) {
      return size;
    }
    var n := size;
    SmearAll(size, CeilLog(size));
    n := Or(n, Shr(n, 1));
    n := Or(n, Shr(n, 2));
    n := Or(n, Shr(n, 4));
    n := Or(n, Shr(n, 8));
    n := Or(n, Shr(n, 16));
    n := Or(n, Shr(n, 32));
    r := (n + 1) % WORD;
  }

  lemma LogOfWord(size: nat)
    requires size < WORD
    ensures CeilLog(size) <= 64 && (size <= HALF <==> CeilLog(size) <= 63)
    ensures IsPow2(size) ==> size == Pow2(CeilLog(size)) && size <= HALF
    ensures !IsPow2(size) ==> size != Pow2(CeilLog(size))
    ensures Pow2(CeilLog(size)) % WORD == if CeilLog(size) <= 63 then Pow2(CeilLog(size)) else 0
  {
    WordIsPow2();
    CeilLogIsLeast(size, 64);
    CeilLogIsLeast(size, 63);
    var h := CeilLog(size);
    Pow2Mono(h, 64);
    if h <= 63 { Pow2Mono(h, 63); }
    LogOfPow2(size);
  }

  lemma LogOfPow2(size: nat)
    ensures IsPow2(size) <==> size == Pow2(CeilLog(size))
  {
    IsPow2Means(size);
    if IsPow2(size) {
      var k: nat :| size == Pow2(k);
      CeilLogOfPow2(k);
    }
  }

  function Smeared(n: nat): nat {
    var a := Or(n, Shr(n, 1));
    var b := Or(a, Shr(a, 2));
    var c := Or(b, Shr(b, 4));
    var d := Or(c, Shr(c, 8));
    var e := Or(d, Shr(d, 16));
    Or(e, Shr(e, 32))
  }

  function Least(a: nat, b: nat): nat { if a < b then a else b }

  lemma SmearNext(n: nat, h: nat, t: nat)
    requires TopOnes(n, h, Least(t, h))
    ensures TopOnes(Or(n, Shr(n, t)), h, Least(2 * t, h))
  {
    if t <= h {
      SmearStep(n, h, t);
    } else {
      ShrBounds(n, t);
      if Shr(n, t) > 0 { ShlMono(0, Shr(n, t), t); }
      Pow2Mono(h, t);
      OrBelow(n, 0, h);
      OrBounds(n, 0);
    }
  }

  lemma SmearAll(n: nat, h: nat)
    requires h <= 64 && n < Pow2(h) && (n > 0 ==> h > 0 && Pow2(h - 1) < n)
    requires n == 0 ==> h == 0
    ensures Smeared(n) == Pow2(h) - 1
  {
    var a := Or(n, Shr(n, 1));
    var b := Or(a, Shr(a, 2));
    var c := Or(b, Shr(b, 4));
    var d := Or(c, Shr(c, 8));
    var e := Or(d, Shr(d, 16));
    SmearNext(n, h, 1);
    SmearNext(a, h, 2);
    SmearNext(b, h, 4);
    SmearNext(c, h, 8);
    SmearNext(d, h, 16);
    SmearNext(e, h, 32);
  }

  lemma SixteenBits()
    ensures Pow2(16) == 0x1_0000 && Pow2(15) == 0x8000
  {
    assert Pow2(4) == 16 && Pow2(8) == 16 * Pow2(4);
    assert Pow2(12) == 16 * Pow2(8) && Pow2(16) == 16 * Pow2(12);
  }

  lemma Square(n: nat, r: nat)
    requires n > 0 && Pow2(n) == r
    ensures Pow2(2 * n) == r * r && 2 * Pow2(2 * n - 1) == r * r
  {
    Product(n, n);
  }

  lemma WordIsPow2()
    ensures Pow2(64) == WORD && Pow2(63) == HALF
  {
    SixteenBits();
    Square(16, 0x1_0000);
    Square(32, 0x1_0000_0000);
  }

  lemma OddTimesPow2(n: nat, p: nat, k: nat)
    requires n % 2 == 1 && n != 1
    ensures Shl(n, p) != Pow2(k)
  {
    if k <= p {
      Pow2Mono(k, p);
      ShlMono(1, n, p);
      ShlPow2(0, p);
    } else {
      ShlPow2(k - p, p);
      if n < Pow2(k - p) { ShlMono(n, Pow2(k - p), p); }
      if n > Pow2(k - p) { ShlMono(Pow2(k - p), n, p); }
    }
  }

  /** `power_of_two`: the exponent of a power of two, 0 for anything else. */
  method PowerOfTwo(size: nat) returns (power: nat)
    ensures forall k: nat :: size == Pow2(k) ==> power == k
    ensures (forall k: nat :: size != Pow2(k)) ==> power == 0
  {
    if size == 0 { return 0; }
    var n := size;
    power := 0;
    while n != 1
      invariant n > 0 && Shl(n, power) == size
    {
      if n % 2 != 0 {
        forall k: nat ensures size != Pow2(k) { OddTimesPow2(n, power, k); }
        return 0;
      }
      ShlStep(n / 2, power);
      n := n / 2;
      power := power + 1;
    }
    ShlPow2(0, power);
    forall k: nat ensures size == Pow2(k) ==> power == k {
      if k < power { Pow2Mono(k + 1, power); }
      if power < k { Pow2Mono(power + 1, k); }
    }
  }

  /** The level the code selects for a request, with `2^unitLog` bytes a unit. */
  function LevelFor(size: nat, unitLog: nat): nat {
    var n := if size > Pow2(unitLog) then size else Pow2(unitLog);
    if n <= HALF && CeilLog(n) >= unitLog then CeilLog(n) - unitLog else 0
  }

  /** `alloc`'s prelude: round the request up to a power of two, then `find_level_from_size`. */
  method FindLevel(size: nat, unitLog: nat) returns (level: nat)
    requires size < WORD && unitLog < 64
    ensures level == LevelFor(size, unitLog)
  {
    var unit := Pow2(unitLog);
    UnitInWord(unitLog);
    var n := if size > unit then size else unit;
    var chunk := NextPowerOfTwo(n);
    ChunkInUnits(n, unitLog);
    level := PowerOfTwo(Units(chunk, unitLog));
  }

  function Units(size: nat, unitLog: nat): nat {
    QuotientIsNat(size, Pow2(unitLog));
    size / Pow2(unitLog)
  }

  lemma QuotientIsNat(a: nat, b: nat)
    requires b > 0
    ensures a / b >= 0
  {
    var q, r := a / b, a % b;
    assert a == b * q + r;
    AtLeastOnce(-q, b);
  }

  lemma UnitInWord(unitLog: nat)
    requires unitLog < 64
    ensures 0 < Pow2(unitLog) < WORD
  {
    WordIsPow2();
    Pow2Mono(unitLog + 1, 64);
  }

  /** The rounded size in units is a power of two, unless the rounding has wrapped to 0. */
  lemma ChunkInUnits(n: nat, unitLog: nat)
    requires n >= Pow2(unitLog)
    ensures CeilLog(n) >= unitLog && Units(Pow2(CeilLog(n)), unitLog) == Pow2(CeilLog(n) - unitLog)
    ensures Units(0, unitLog) == 0
  {
    if unitLog > 0 {
      CeilLogIsLeast(n, unitLog - 1);
      Pow2Mono(unitLog - 1, unitLog);
    }
    Quotient(CeilLog(n), unitLog);
  }

  lemma Quotient(k: nat, j: nat)
    requires j <= k
    ensures Pow2(k) / Pow2(j) == Pow2(k - j)
  {
    Product(k - j, j);
    DivExact(Pow2(k - j), Pow2(j));
  }

  lemma DivExact(a: nat, b: nat)
    requires b > 0
    ensures a * b / b == a
  {
    var q, r := a * b / b, a * b % b;
    assert a * b == b * q + r;
    AtLeastOnce(a - q, b);
    AtLeastOnce(q - a, b);
  }

  lemma AtLeastOnce(x: int, b: nat)
    ensures x >= 1 ==> x * b >= b
  {}

  lemma {:induction false} Product(a: nat, b: nat)
    ensures Pow2(a) * Pow2(b) == Pow2(a + b)
  {
    if a > 0 { Product(a - 1, b); }
  }

  /** The size in bytes of a block, `find_size_from_level`. */
  function SizeOf(level: nat, unitLog: nat): nat { Pow2(level + unitLog) }

  lemma UnitBelowHalf(unitLog: nat)
    requires unitLog < 63
    ensures Pow2(unitLog) <= HALF
  {
    WordIsPow2();
    Pow2Mono(unitLog, 63);
  }

  /** The block fits the request exactly when the request is at most 2^63 bytes: beyond that the
      rounding wraps to 0 and level 0 is selected. */
  lemma LevelFits(size: nat, unitLog: nat)
    requires size < WORD && unitLog < 63
    ensures SizeOf(LevelFor(size, unitLog), unitLog) >= size <==> size <= HALF
  {
    var n := if size > Pow2(unitLog) then size else Pow2(unitLog);
    UnitBelowHalf(unitLog);
    if unitLog > 0 { CeilLogIsLeast(n, unitLog - 1); }
  }

  /** And no smaller level fits. */
  lemma LevelIsLeast(size: nat, unitLog: nat, l: nat)
    requires size <= HALF && SizeOf(l, unitLog) >= size
    ensures l >= LevelFor(size, unitLog)
  {
    var n := if size > Pow2(unitLog) then size else Pow2(unitLog);
    Pow2Mono(unitLog, l + unitLog);
    CeilLogIsLeast(n, l + unitLog);
  }

  /** One byte more than 2^63 is given a single unit. */
  lemma OversizedRequestGetsOneUnit(unitLog: nat)
    requires unitLog < 63
    ensures LevelFor(HALF + 1, unitLog) == 0 && SizeOf(0, unitLog) < HALF + 1
  {
    UnitBelowHalf(unitLog);
  }
}
