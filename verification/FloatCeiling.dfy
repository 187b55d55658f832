/**
 `math.ceil(n / 1000)` divides in binary64 before rounding up
 (app/services/cost_service.py). The quotient is a double nearest to n/1000
 (round to nearest, section 4.3.1 of IEEE 754-2019); this module proves for
 which n the result is still the integer ceiling.
 */
module FloatCeiling {
  import opened Powers

  const TWO_53 := 0x20_0000_0000_0000
  const TWO_44 := 0x1000_0000_0000

  /** The largest count up to which the float ceiling is exact throughout. */
  const EXACT_UP_TO: nat := 1000 * TWO_44

  ghost predicate Scaled(x: real, m: int, k: nat) {
    x == (m * Pow2(k)) as real || x * Pow2(k) as real == m as real
  }

  /** A 53-bit significand times a power of two. The exponent range is left
      unbounded: quotients n/1000 are either 0 or at least 1/1000. */
  ghost predicate IsDouble(x: real) {
    exists m: int, k: nat :: -TWO_53 < m < TWO_53 && Scaled(x, m, k)
  }

  function Abs(x: real): real {
    if x < 0.0 then -x else x
  }

  /** y is a double nearest to x, whichever way ties are broken. */
  ghost predicate RoundsTo(x: real, y: real) {
    IsDouble(y) && forall z | IsDouble(z) :: Abs(x - y) <= Abs(x - z)
  }

  /** y is n / 1000 as Python computes it. */
  ghost predicate IsQuotient(n: nat, y: real) {
    RoundsTo(n as real / 1000.0, y)
  }

  function Ceil(y: real): int {
    if y.Floor as real == y then y.Floor else y.Floor + 1
  }

  /** The integer ceiling of n/1000. */
  function Blocks(n: nat): nat {
    (n + 999) / 1000
  }

  /** Blocks(n) is the least number of blocks of 1000 that holds n. */
  lemma BlocksIsLeast(n: nat, k: nat)
    ensures n <= 1000 * k <==> Blocks(n) <= k
  {
  }

  lemma SmallIntegerIsDouble(k: int)
    requires -TWO_53 < k < TWO_53
    ensures IsDouble(k as real)
  {
    assert Pow2(0) == 1;
    assert Scaled(k as real, k, 0);
  }

  lemma Pow2Of9()
    ensures Pow2(8) == 256 && Pow2(9) == 512
  {
    assert Pow2(4) == 16;
    assert Pow2(8) == 256;
  }

  /** Below 2^44 every multiple of 2^-9 is a double. */
  lemma HalfStepIsDouble(k: nat)
    requires k < TWO_44
    ensures IsDouble(k as real + 1.0 / 512.0)
  {
    Pow2Of9();
    assert Scaled(k as real + 1.0 / 512.0, 512 * k + 1, 9);
  }

  /** A quotient just above k can only round into (k, k + 1]. */
  lemma RoundsUpwards(k: int, x: real, y: real)
    requires k as real + 1.0 / 1000.0 <= x < (k + 1) as real
    requires Abs(x - y) <= Abs(x - k as real)
    requires Abs(x - y) <= Abs(x - (k + 1) as real)
    requires Abs(x - y) <= Abs(x - (k as real + 1.0 / 512.0))
    ensures Ceil(y) == k + 1
  {
    assert k as real < y <= (k + 1) as real;
  }

  /** The float ceiling equals the integer one for every count up to 1000 * 2^44. */
  lemma CeilingIsExact(n: nat, quotient: real)
    requires n <= EXACT_UP_TO
    requires IsQuotient(n, quotient)
    ensures Ceil(quotient) == Blocks(n)
  {
    var x := n as real / 1000.0;
    var k := n / 1000;
    SmallIntegerIsDouble(k);
    if n % 1000 == 0 {
      assert x == k as real;
    } else {
      SmallIntegerIsDouble(k + 1);
      HalfStepIsDouble(k);
      RoundsUpwards(k, x, quotient);
    }
  }

  // ---- doubles in units of a power of two ----

  /** x in units of 2^-s. */
  function Doubled(x: real, s: nat): real
    decreases s
  {
    if s == 0 then x else Doubled(2.0 * x, s - 1)
  }

  function Halved(x: real, s: nat): real
    decreases s
  {
    if s == 0 then x else Halved(x, s - 1) / 2.0
  }

  lemma {:induction false} DoubledHalved(x: real, s: nat)
    ensures Doubled(Halved(x, s), s) == x
    decreases s
  {
    if s > 0 {
      DoubledHalved(x, s - 1);
    }
  }

  lemma {:induction false} HalvedBounds(x: real, s: nat)
    requires 0.0 < x
    ensures 0.0 < Halved(x, s) <= x
    decreases s
  {
    if s > 0 {
      HalvedBounds(x, s - 1);
    }
  }

  lemma {:induction false} DoubledAdds(x: real, y: real, s: nat)
    ensures Doubled(x + y, s) == Doubled(x, s) + Doubled(y, s)
    decreases s
  {
    if s > 0 {
      DoubledAdds(2.0 * x, 2.0 * y, s - 1);
      assert 2.0 * (x + y) == 2.0 * x + 2.0 * y;
    }
  }

  lemma {:induction false} DoubledOrders(x: real, y: real, s: nat)
    ensures x <= y <==> Doubled(x, s) <= Doubled(y, s)
    decreases s
  {
    if s > 0 {
      DoubledOrders(2.0 * x, 2.0 * y, s - 1);
    }
  }

  lemma {:induction false} DoubledIsProduct(x: real, s: nat)
    ensures Doubled(x, s) == x * Pow2(s) as real
    decreases s
  {
    if s > 0 {
      DoubledIsProduct(2.0 * x, s - 1);
      assert 2.0 * x * Pow2(s - 1) as real == x * (2.0 * Pow2(s - 1) as real);
    }
  }

  lemma {:induction false} DoubledInteger(w: int, s: nat) returns (u: int)
    ensures Doubled(w as real, s) == u as real
    decreases s
  {
    u := w;
    if s > 0 {
      assert 2.0 * w as real == (2 * w) as real;
      u := DoubledInteger(2 * w, s - 1);
    }
  }

  lemma {:induction false} DoubledGrows(x: real, s: nat)
    requires 0.0 <= x
    ensures x <= Doubled(x, s)
    decreases s
  {
    if s > 0 {
      DoubledGrows(2.0 * x, s - 1);
    }
  }

  /** Distances compare as they do in units. */
  lemma {:induction false} CloserInUnits(x: real, y: real, z: real, s: nat)
    requires Abs(Doubled(x, s) - Doubled(y, s)) <= Abs(Doubled(x, s) - Doubled(z, s))
    ensures Abs(x - y) <= Abs(x - z)
    decreases s
  {
    if s > 0 {
      CloserInUnits(2.0 * x, 2.0 * y, 2.0 * z, s - 1);
    }
  }

  /** v is not strictly between k and k + 1. */
  predicate Outside(v: real, k: int) {
    v <= k as real || (k + 1) as real <= v
  }

  lemma WholeUnits(w: int, k: int)
    ensures Outside(w as real, k)
  {
    if w <= k {
      assert w as real <= k as real;
    } else {
      assert (k + 1) as real <= w as real;
    }
  }

  /** In units of 2^-s, a 53-bit fraction is a whole number of units from 2^52 units on. */
  lemma {:induction false} FractionGap(x: real, m: int, e: nat, s: nat, k: int)
    requires Doubled(x, e) == m as real && m < TWO_53 <= 2 * k
    ensures Outside(Doubled(x, s), k)
    decreases s
  {
    if e == 0 {
      var u := DoubledInteger(m, s);
      WholeUnits(u, k);
    } else if s > 0 {
      FractionGap(2.0 * x, m, e - 1, s - 1, k);
    } else if 0.0 <= x {
      DoubledGrows(2.0 * x, e - 1);
    }
  }

  /** A double is a whole number, or a 53-bit number of units of 2^-e. */
  lemma ShapeOf(x: real) returns (whole: bool, w: int, e: nat)
    requires IsDouble(x)
    ensures if whole then x == w as real else w < TWO_53 && Doubled(x, e) == w as real
  {
    var m: int, k: nat :| -TWO_53 < m < TWO_53 && Scaled(x, m, k);
    DoubledIsProduct(x, k);
    var product := m * Pow2(k);
    if x == product as real {
      return true, product, 0;
    }
    return false, m, k;
  }

  lemma GapBetweenUnits(x: real, s: nat, k: int)
    requires IsDouble(x) && TWO_53 <= 2 * k
    ensures Outside(Doubled(x, s), k)
  {
    var whole, w, e := ShapeOf(x);
    if whole {
      var u := DoubledInteger(w, s);
      WholeUnits(u, k);
    } else {
      FractionGap(x, w, e, s, k);
    }
  }

  lemma FractionIsDouble(x: real, m: int, e: nat)
    requires -TWO_53 < m < TWO_53 && x * Pow2(e) as real == m as real
    ensures IsDouble(x)
  {
    assert Scaled(x, m, e);
  }

  lemma UnitsAreDouble(y: real, w: int, s: nat)
    requires 1 <= s && 0 <= w <= TWO_53 && Doubled(y, s) == w as real
    ensures IsDouble(y)
  {
    DoubledIsProduct(y, s);
    if w < TWO_53 {
      FractionIsDouble(y, w, s);
    } else {
      DoubledIsProduct(y, s - 1);
      assert y * Pow2(s) as real == 2.0 * (y * Pow2(s - 1) as real);
      FractionIsDouble(y, TWO_53 / 2, s - 1);
    }
  }

  // ---- bands ----

  lemma Pow2Splits(j: nat, k: nat)
    ensures Pow2(j) * Pow2(k) == Pow2(j + k)
  {
    if j > 0 {
      Pow2Splits(j - 1, k);
    }
  }

  lemma Pow2Of53()
    ensures Pow2(53) == TWO_53
  {
    Pow2Of9();
    Pow2Splits(9, 9);
    Pow2Splits(18, 9);
    Pow2Splits(27, 9);
    Pow2Splits(36, 9);
    Pow2Splits(45, 8);
  }

  /** The quotients of band j run from 2^(53-j) to 2^(54-j). */
  predicate InBand(k: int, j: nat) {
    2 <= j <= 9 && Pow2(53 - j) <= k < Pow2(54 - j)
  }

  lemma Scale(x: int, y: int, p: nat)
    requires x <= y
    ensures x * p <= y * p
  {
  }

  lemma BandArithmetic(k: int, a: nat, b: nat)
    requires 2 <= b && a <= k < 2 * a && a * (2 * b) == TWO_53
    ensures TWO_53 <= 2 * (k * b) && k * b + 1 < TWO_53 && 0 < k < TWO_53 - 1
  {
    Scale(a, k, 2 * b);
    Scale(k, 2 * a - 1, b);
    assert (2 * a - 1) * b == a * (2 * b) - b;
    Scale(2, b, k);
  }

  lemma BandLimits(k: int, j: nat)
    requires InBand(k, j)
    ensures 2 <= Pow2(j - 1) && Pow2(j) == 2 * Pow2(j - 1)
    ensures TWO_53 <= 2 * (k * Pow2(j - 1)) && k * Pow2(j - 1) + 1 < TWO_53 && 0 < k < TWO_53 - 1
  {
    var a, b := Pow2(53 - j), Pow2(j - 1);
    Pow2Of53();
    Pow2Splits(53 - j, j);
    assert Pow2(54 - j) == 2 * a;
    assert b == 2 * Pow2(j - 2);
    BandArithmetic(k, a, b);
  }

  /** The distance from a whole number in band j to the next double. */
  function Step(j: nat): real
    requires 1 <= j
  {
    Halved(1.0, j - 1)
  }

  lemma WholeInUnits(k: int, s: nat) returns (units: int)
    ensures units == k * Pow2(s) && Doubled(k as real, s) == units as real
  {
    units := k * Pow2(s);
    DoubledIsProduct(k as real, s);
  }

  lemma StepUnits(k: int, j: nat) returns (units: int)
    requires InBand(k, j)
    ensures Doubled(k as real, j - 1) == units as real && Doubled(k as real + Step(j), j - 1) == (units + 1) as real
    ensures TWO_53 <= 2 * units && 0 <= units < TWO_53
  {
    BandLimits(k, j);
    units := WholeInUnits(k, j - 1);
    DoubledHalved(1.0, j - 1);
    DoubledAdds(k as real, Step(j), j - 1);
  }

  /** In band j no double lies strictly between an integer k and k + 2^(1-j). */
  lemma GapInBand(x: real, k: int, j: nat)
    requires IsDouble(x) && InBand(k, j)
    ensures x <= k as real || k as real + Step(j) <= x
  {
    var units := StepUnits(k, j);
    GapBetweenUnits(x, j - 1, units);
    DoubledOrders(x, k as real, j - 1);
    DoubledOrders(k as real + Step(j), x, j - 1);
  }

  lemma StepIsDouble(k: int, j: nat)
    requires InBand(k, j)
    ensures IsDouble(k as real + Step(j))
  {
    var units := StepUnits(k, j);
    UnitsAreDouble(k as real + Step(j), units + 1, j - 1);
  }

  /** How r thousandths compare with the middle between k and the next double. */
  lemma Midpoint(r: nat, j: nat)
    requires 1 <= j
    ensures 2.0 * (r as real / 1000.0) > Step(j) <==> 1000 < r * Pow2(j)
    ensures 2.0 * (r as real / 1000.0) < Step(j) <==> r * Pow2(j) < 1000
  {
    var twice := 2.0 * (r as real / 1000.0);
    DoubledHalved(1.0, j - 1);
    DoubledOrders(twice, Step(j), j - 1);
    DoubledOrders(Step(j), twice, j - 1);
    DoubledIsProduct(r as real / 1000.0, j);
    assert r as real / 1000.0 * Pow2(j) as real == (r * Pow2(j)) as real / 1000.0;
  }

  /** What the float ceiling is between 1000 * 2^44 and 1000 * 2^52: it is one block
      short for the counts less than 1000 / 2^j above a multiple of 1000, and exact
      for all others, up to a tie at exactly 1000 / 2^j. */
  lemma CeilingPerBand(n: nat, j: nat, quotient: real)
    requires InBand(n / 1000, j) && IsQuotient(n, quotient)
    ensures n % 1000 == 0 || 1000 < n % 1000 * Pow2(j) ==> Ceil(quotient) == Blocks(n)
    ensures 0 < n % 1000 * Pow2(j) < 1000 ==> Ceil(quotient) == Blocks(n) - 1
    ensures Blocks(n) - 1 <= Ceil(quotient) <= Blocks(n)
  {
    var k, r := n / 1000, n % 1000;
    var x := n as real / 1000.0;
    BandLimits(k, j);
    HalvedBounds(1.0, j - 1);
    SmallIntegerIsDouble(k);
    SmallIntegerIsDouble(k + 1);
    StepIsDouble(k, j);
    Midpoint(r, j);
    assert x == k as real + r as real / 1000.0;
    GapInBand(quotient, k, j);
    NearestOf(k, r, Step(j), quotient);
  }

  /** The nearest of k, k + step and k + 1, when nothing lies between the first two. */
  lemma NearestOf(k: int, r: nat, step: real, y: real)
    requires r < 1000 && 0.0 < step <= 1.0
    requires y <= k as real || k as real + step <= y
    requires var x := k as real + r as real / 1000.0;
             && Abs(x - y) <= Abs(x - k as real)
             && Abs(x - y) <= Abs(x - (k + 1) as real)
             && Abs(x - y) <= Abs(x - (k as real + step))
    ensures r == 0 ==> Ceil(y) == k
    ensures 2.0 * (r as real / 1000.0) > step ==> Ceil(y) == k + 1
    ensures 2.0 * (r as real / 1000.0) < step ==> Ceil(y) == k
    ensures k <= Ceil(y) <= if r == 0 then k else k + 1
  {
    var x := k as real + r as real / 1000.0;
    assert k as real <= y <= (k + 1) as real;
    if r == 0 || 2.0 * (r as real / 1000.0) < step {
      assert y == k as real;
    } else if 2.0 * (r as real / 1000.0) > step {
      assert k as real < y;
    }
  }

  /** The initial range is the largest: at the next count the nearest double is
      2^44, one block short of the integer ceiling. */
  lemma CeilingFailsNext(quotient: real)
    ensures IsQuotient(EXACT_UP_TO + 1, TWO_44 as real)
    ensures IsQuotient(EXACT_UP_TO + 1, quotient) ==>
              Ceil(quotient) == Blocks(EXACT_UP_TO + 1) - 1
  {
    var x := (EXACT_UP_TO + 1) as real / 1000.0;
    Pow2Of9();
    Pow2Of53();
    Pow2Splits(44, 9);
    Pow2Splits(45, 8);
    assert InBand(TWO_44, 9);
    SmallIntegerIsDouble(TWO_44);
    forall z | IsDouble(z)
      ensures z <= TWO_44 as real || TWO_44 as real + 1.0 / 256.0 <= z
    {
      GapInBand(z, TWO_44, 9);
    }
    if IsQuotient(EXACT_UP_TO + 1, quotient) {
      CeilingPerBand(EXACT_UP_TO + 1, 9, quotient);
    }
  }

  // ---- nearest doubles exist ----

  /** Doubling n until it has a quotient of 53 bits. */
  lemma {:induction false} FindScale(n: nat, s: nat) returns (r: nat)
    requires 0 < n && n * Pow2(s) < 1000 * TWO_53
    ensures s <= r && 1000 * TWO_53 <= 2 * (n * Pow2(r)) && n * Pow2(r) < 1000 * TWO_53
    decreases 1000 * TWO_53 - n * Pow2(s)
  {
    r := s;
    if 2 * (n * Pow2(s)) < 1000 * TWO_53 {
      assert n * Pow2(s + 1) == 2 * (n * Pow2(s));
      r := FindScale(n, s + 1);
    }
  }

  /** Rounding f to the nearer of k and k + 1. */
  function NearerUnit(f: real, k: int): int {
    if f - k as real <= 0.5 then k else k + 1
  }

  lemma UnitIsNearest(x: real, y: real, z: real, s: nat, k: int)
    requires k as real <= Doubled(x, s) < (k + 1) as real && Outside(Doubled(z, s), k)
    requires Doubled(y, s) == NearerUnit(Doubled(x, s), k) as real
    ensures Abs(x - y) <= Abs(x - z)
  {
    CloserInUnits(x, y, z, s);
  }

  lemma NearestUnit(x: real, s: nat, k: int) returns (y: real)
    requires 1 <= s && TWO_53 <= 2 * k && k < TWO_53
    requires k as real <= Doubled(x, s) < (k + 1) as real
    ensures RoundsTo(x, y)
  {
    var w := NearerUnit(Doubled(x, s), k);
    y := Halved(w as real, s);
    DoubledHalved(w as real, s);
    UnitsAreDouble(y, w, s);
    forall z | IsDouble(z)
      ensures Abs(x - y) <= Abs(x - z)
    {
      GapBetweenUnits(z, s, k);
      UnitIsNearest(x, y, z, s, k);
    }
  }

  /** Every quotient of the exact range, and of all bands, has a nearest double. */
  lemma NearestExists(n: nat) returns (y: real)
    requires 2 * n < 1000 * TWO_53
    ensures IsQuotient(n, y)
  {
    var x := n as real / 1000.0;
    if n == 0 {
      SmallIntegerIsDouble(0);
      y := 0.0;
    } else {
      assert Pow2(1) == 2;
      var s := FindScale(n, 1);
      var units := n * Pow2(s);
      DoubledIsProduct(x, s);
      assert x * Pow2(s) as real == units as real / 1000.0;
      assert (units / 1000) as real <= units as real / 1000.0 < (units / 1000 + 1) as real;
      y := NearestUnit(x, s, units / 1000);
    }
  }
}
