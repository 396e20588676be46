/** The integer unit conversions of apps/drivebase/drivebase_angle.h. */
module DriveAngle {

  const PI_NUM: int := 355
  const PI_DEN: int := 113
  const TURN: int := 360_000_000
  const INT32_MAX: int := 0x7FFF_FFFF
  const INT64_MAX: int := 0x7FFF_FFFF_FFFF_FFFF

  predicate Int32(x: int) { -INT32_MAX - 1 <= x <= INT32_MAX }
  predicate Int64(x: int) { -INT64_MAX - 1 <= x <= INT64_MAX }

  /** C division: truncates toward zero. */
  function Quotient(a: int, b: int): int
    requires b > 0
  {
    if a >= 0 then a / b else -((-a) / b)
  }

  /** Lines 73-80. */
  function DivRound(num: int, den: int): (r: int)
    requires den > 0
    ensures 2 * Abs(den * r - num) <= den
  {
    RoundsToNearest(num, den);
    if num >= 0 then Quotient(num + den / 2, den) else Quotient(num - den / 2, den)
  }

  function Abs(x: int): (r: int)
    ensures r >= 0 && (r == x || r == -x)
  {
    if x < 0 then -x else x
  }

  /** Both branches give a nearest integer, ties away from zero. */
  lemma RoundsToNearest(num: int, den: int)
    requires den > 0
    ensures var r := if num >= 0 then Quotient(num + den / 2, den) else Quotient(num - den / 2, den);
      2 * Abs(den * r - num) <= den
  {
    var shifted := Abs(num) + den / 2;
    var q := shifted / den;
    assert shifted == den * q + shifted % den;
    assert den * (-q) == -(den * q);
  }

  /** Lines 89-98. */
  function MmToMdeg(mm: int, diameter: nat): int {
    if diameter == 0 then 0 else DivRound(DivRound(mm * TURN, diameter) * PI_DEN, PI_NUM)
  }

  /** Lines 82-87. */
  function MdegToMm(mdeg: int, diameter: nat): int {
    DivRound(DivRound(mdeg * PI_NUM, PI_DEN) * diameter, TURN)
  }

  // ---- Round trip -------------------------------------------------------------------------

  /** Through 113/355 and back a value moves by at most two. */
  lemma PiRoundTrip(x: int)
    ensures Abs(DivRound(DivRound(x * PI_DEN, PI_NUM) * PI_NUM, PI_DEN) - x) <= 2
  {
    var y := DivRound(x * PI_DEN, PI_NUM);
    var z := DivRound(y * PI_NUM, PI_DEN);
    assert 2 * Abs(355 * y - 113 * x) <= 355;
    assert 2 * Abs(113 * z - 355 * y) <= 113;
  }

  /** Less than half a turn's worth of error rounds away. */
  lemma SmallErrorVanishes(mm: int, e: int)
    requires 2 * Abs(e) < TURN
    ensures DivRound(mm * TURN + e, TURN) == mm
  {
    var r := DivRound(mm * TURN + e, TURN);
    assert 2 * Abs(360_000_000 * r - (360_000_000 * mm + e)) <= 360_000_000;
    assert Abs(360_000_000 * (r - mm)) < 360_000_000;
  }

  lemma SmallMultiple(k: int, d: nat)
    requires Abs(k) <= 2
    ensures Abs(k * d) <= 2 * d
  {
  }

  lemma Expand(x: int, z: int, d: int)
    ensures z * d == d * x + (z - x) * d
  {
    assert (x + (z - x)) * d == x * d + (z - x) * d;
  }

  /** What comes back, before the last division, is off by at most two and a half diameters. */
  lemma BackError(mm: int, diameter: nat)
    requires diameter > 0
    ensures var x := DivRound(mm * TURN, diameter);
      var z := DivRound(DivRound(x * PI_DEN, PI_NUM) * PI_NUM, PI_DEN);
      Abs(z - x) <= 2 && 2 * Abs(z * diameter - mm * TURN) <= 5 * diameter
  {
    hide DivRound;
    var x := DivRound(mm * TURN, diameter);
    var z := DivRound(DivRound(x * PI_DEN, PI_NUM) * PI_NUM, PI_DEN);
    PiRoundTrip(x);
    SmallMultiple(z - x, diameter);
    Expand(x, z, diameter);
    AddErrors(diameter * x, mm * TURN, z * diameter, (z - x) * diameter, diameter);
  }

  lemma AddErrors(p: int, a: int, q: int, k: int, d: nat)
    requires 2 * Abs(p - a) <= d && q == p + k && Abs(k) <= 2 * d
    ensures 2 * Abs(q - a) <= 5 * d
  {
  }

  /** Converting a distance to an angle and back returns exactly the distance, despite four
      roundings and the rational pi, for every wheel smaller than 72 m. */
  lemma MmRoundTrip(mm: int, diameter: nat)
    requires 0 < diameter < 72_000_000
    ensures MdegToMm(MmToMdeg(mm, diameter), diameter) == mm
  {
    hide DivRound;
    var x := DivRound(mm * TURN, diameter);
    var z := DivRound(DivRound(x * PI_DEN, PI_NUM) * PI_NUM, PI_DEN);
    BackError(mm, diameter);
    SmallErrorVanishes(mm, z * diameter - mm * TURN);
  }

  /** What one millimetre comes to, in units of pi, on a wheel of 180 m or more. */
  lemma OneMillimetre(diameter: nat)
    requires diameter >= 180_000_000
    ensures 0 <= DivRound(TURN, diameter) <= 2
    ensures DivRound(TURN, diameter) == 2 ==> diameter <= 240_000_000
  {
    hide DivRound;
    var x := DivRound(TURN, diameter);
    Unit(x, diameter);
  }

  lemma Unit(x: int, d: nat)
    requires d >= 180_000_000 && 2 * Abs(d * x - TURN) <= d
    ensures 0 <= x <= 2 && (x == 2 ==> d <= 240_000_000)
  {
    assert x >= 3 ==> d * x >= 3 * d;
    if x < 0 { NegativeProduct(x, d); }
  }

  lemma NegativeProduct(x: int, d: nat)
    requires x < 0
    ensures d * x + d <= 0
  {
    var y: nat := -x - 1;
    assert d * y >= 0;
    assert d * x == -(d * y) - d;
  }

  /** On every wheel of 180 m or more one millimetre does not come back. */
  lemma RoundTripNeedsABound(diameter: nat)
    requires diameter >= 180_000_000
    ensures MdegToMm(MmToMdeg(1, diameter), diameter) != 1
  {
    var x := DivRound(1 * TURN, diameter);
    OneMillimetre(diameter);
    assert DivRound(0 * PI_DEN, PI_NUM) == 0 && DivRound(1 * PI_DEN, PI_NUM) == 0 && DivRound(2 * PI_DEN, PI_NUM) == 1;
    assert DivRound(0 * PI_NUM, PI_DEN) == 0 && DivRound(1 * PI_NUM, PI_DEN) == 3;
    if x == 2 {
      ThreeUnits(diameter);
    } else {
      assert DivRound(0 * diameter, TURN) == 0;
    }
  }

  lemma ThreeUnits(d: nat)
    requires 180_000_000 <= d
    ensures DivRound(3 * d, TURN) >= 2
  {
  }

  // ---- Accuracy ---------------------------------------------------------------------------

  /** The angle is the distance over the circumference, with pi as 355/113, in thousandths of a degree,
      to within two thirds of a unit: `diameter` is in micrometres. */
  lemma AngleAccurate(mm: int, diameter: nat)
    requires diameter > 0
    ensures 2 * Abs(355 * diameter * MmToMdeg(mm, diameter) - 113 * 360_000_000 * mm) <= 468 * diameter
  {
    hide DivRound;
    var x := DivRound(mm * TURN, diameter);
    var r := DivRound(x * PI_DEN, PI_NUM);
    assert 2 * Abs(355 * r - 113 * x) <= 355;
    ScaledError(355 * r - 113 * x, 355, diameter);
    assert 355 * diameter * r == diameter * (355 * r);
    assert diameter * (355 * r - 113 * x) == diameter * (355 * r) - 113 * (diameter * x);
  }

  /** The distance is the angle's share of the circumference, to within half a millimetre and, for the
      rounding of pi, one millimetre per 720 m of diameter. */
  lemma DistanceAccurate(mdeg: int, diameter: nat)
    ensures 2 * Abs(113 * 360_000_000 * MdegToMm(mdeg, diameter) - 355 * diameter * mdeg) <=
      113 * 360_000_000 + 113 * diameter
  {
    hide DivRound;
    var z := DivRound(mdeg * PI_NUM, PI_DEN);
    assert 2 * Abs(113 * z - 355 * mdeg) <= 113;
    ScaledError(113 * z - 355 * mdeg, 113, diameter);
    assert 355 * diameter * mdeg == diameter * (355 * mdeg);
    assert diameter * (113 * z - 355 * mdeg) == 113 * (z * diameter) - diameter * (355 * mdeg);
  }

  lemma ScaledError(e: int, bound: nat, d: nat)
    requires 2 * Abs(e) <= bound
    ensures 2 * Abs(d * e) <= bound * d
  {
    AbsProduct(d, e);
    assert d * (2 * Abs(e)) <= d * bound;
  }

  // ---- Width ------------------------------------------------------------------------------

  /** Every 64-bit value the two conversions form on the way, in order. */
  function Intermediates(mm: int, diameter: nat): seq<int>
    requires diameter > 0
  {
    var a := mm * TURN;
    var x := DivRound(a, diameter);
    var b := x * PI_DEN;
    var mdeg := DivRound(b, PI_NUM);
    var c := mdeg * PI_NUM;
    var z := DivRound(c, PI_DEN);
    var d := z * diameter;
    [a, Biased(a, diameter), x, b, Biased(b, PI_NUM), mdeg, c, Biased(c, PI_DEN), z, d, Biased(d, TURN)]
  }

  /** The dividend after the rounding bias. */
  function Biased(num: int, den: int): int
    requires den > 0
  {
    if num >= 0 then num + den / 2 else num - den / 2
  }

  /** |x| is at most the largest distance over 10, rounded. */
  lemma QuotientBound(p: int, a: int, x: int, d: nat)
    requires d >= 10 && p == d * x && Abs(a) <= 0x8000_0000 * 360_000_000 && 2 * Abs(p - a) <= d
    ensures Abs(x) <= 77_309_411_328_000_001
  {
    AbsProduct(d, x);
    TenTimes(d, Abs(x));
    BoundFrom(Abs(p), Abs(a), Abs(x), d);
  }

  lemma AbsProduct(d: nat, x: int)
    ensures Abs(d * x) == d * Abs(x)
  {
    assert d * (-x) == -(d * x);
  }

  lemma TenTimes(d: nat, y: nat)
    requires d >= 10
    ensures y >= 1 ==> 10 * (y - 1) <= d * y - d
  {
    assert y >= 1 ==> (d - 10) * (y - 1) >= 0;
    assert (d - 10) * (y - 1) == d * (y - 1) - 10 * (y - 1);
    assert d * (y - 1) == d * y - d;
  }

  lemma BoundFrom(p: nat, a: nat, y: nat, d: nat)
    requires 2 * p <= 2 * a + d && a <= 0x8000_0000 * 360_000_000 && (y >= 1 ==> 10 * (y - 1) <= p - d)
    ensures y <= 77_309_411_328_000_001
  {
  }

  lemma FirstHalfFits(mm: int, diameter: nat)
    requires Int32(mm) && 10 <= diameter <= 10_000_000
    ensures var a := mm * TURN;
      var x := DivRound(a, diameter);
      Abs(a) <= 0x8000_0000 * 360_000_000 && Int64(Biased(a, diameter)) && Abs(x) <= 77_309_411_328_000_001
  {
    hide DivRound;
    QuotientBound(diameter * DivRound(mm * TURN, diameter), mm * TURN, DivRound(mm * TURN, diameter), diameter);
  }

  lemma PiHalfFits(x: int)
    requires Abs(x) <= 77_309_411_328_000_001
    ensures var b := x * PI_DEN;
      var mdeg := DivRound(b, PI_NUM);
      var c := mdeg * PI_NUM;
      Int64(b) && Int64(Biased(b, PI_NUM)) && Int64(mdeg) && Int64(c) && Int64(Biased(c, PI_DEN))
  {
    hide DivRound;
    var mdeg := DivRound(x * PI_DEN, PI_NUM);
    assert 2 * Abs(355 * mdeg - 113 * x) <= 355;
  }

  /** For every 32-bit distance and every wheel of 10 um to 10 m nothing overflows 64 bits. */
  lemma NoOverflow(mm: int, diameter: nat)
    requires Int32(mm) && 10 <= diameter <= 10_000_000
    ensures forall i | 0 <= i < |Intermediates(mm, diameter)| :: Int64(Intermediates(mm, diameter)[i])
  {
    hide DivRound;
    var x := DivRound(mm * TURN, diameter);
    var z := DivRound(DivRound(x * PI_DEN, PI_NUM) * PI_NUM, PI_DEN);
    FirstHalfFits(mm, diameter);
    PiHalfFits(x);
    BackError(mm, diameter);
    LastFits(mm * TURN, z * diameter, diameter);
  }

  lemma LastFits(a: int, d: int, diameter: nat)
    requires Abs(a) <= 0x8000_0000 * 360_000_000 && 2 * Abs(d - a) <= 5 * diameter && diameter <= 10_000_000
    ensures Int64(d) && Int64(Biased(d, TURN))
  {
  }

  /** Below 10 um the longest distances do overflow, on the way to the angle. */
  lemma SmallWheelsOverflow(diameter: nat)
    requires 0 < diameter < 10
    ensures !Int64(Intermediates(INT32_MAX, diameter)[3])
  {
    hide DivRound;
    var x := DivRound(INT32_MAX * TURN, diameter);
    assert x > 0 ==> diameter * x <= 9 * x;
  }
}
