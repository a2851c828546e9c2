/** The consensus score: `amt * ln(1 + blocks)` in integer fixed point (storage/consensus.go). */
module Score {
  const SCALE: nat := 1000000000
  const LN2_SCALED: nat := 693147180
  const ONE_Q: nat := 0x1_0000_0000

  function Pow2(k: nat): (p: nat)
    ensures p > 0
  {
    if k == 0 then 1 else 2 * Pow2(k - 1)
  }

  /** `BitLen() - 1`. */
  function Log2(n: nat): (k: nat)
    requires n > 0
    ensures Pow2(k) <= n < 2 * Pow2(k)
  {
    if n == 1 then 0 else 1 + Log2(n / 2)
  }

  /** `n / 2^k` in Q32, between one and two. */
  function Mantissa(n: nat): (a: nat)
    requires n > 0
  {
    n * ONE_Q / Pow2(Log2(n))
  }

  /** `(a - 1) / (a + 1)` in Q32. */
  function Ratio(a: nat): nat
    requires a >= ONE_Q
  {
    (a - ONE_Q) * ONE_Q / (a + ONE_Q)
  }

  /** Truncated product of two Q32 numbers. */
  function MulQ(x: nat, y: nat): nat {
    x * y / ONE_Q
  }

  /** `y + y^3/3 + y^5/5` in Q32, truncating at every step. */
  function Series(y: nat): nat {
    var y2 := MulQ(y, y);
    var y3 := MulQ(y2, y);
    var y5 := MulQ(y3, y2);
    y + y3 / 3 + y5 / 5
  }

  /** The part of the logarithm above the power of two, times `SCALE`. */
  function LnMantissa(a: nat): nat
    requires a >= ONE_Q
  {
    Series(Ratio(a)) * 2 * SCALE / ONE_Q
  }

  lemma MulMonotone(a: int, b: int, c: nat)
    ensures a <= b ==> a * c <= b * c
  {}

  lemma MantissaRange(n: nat)
    requires n > 0
    ensures ONE_Q <= Mantissa(n) < 2 * ONE_Q
  {
    var p := Pow2(Log2(n));
    assert p * ONE_Q <= n * ONE_Q < 2 * p * ONE_Q;
    QuotientRange(n * ONE_Q, p, ONE_Q);
  }

  lemma QuotientRange(x: nat, p: nat, q: nat)
    requires p > 0 && p * q <= x < 2 * p * q
    ensures q <= x / p < 2 * q
  {
    var d := x / p;
    assert d * p <= x < (d + 1) * p;
    MulMonotone(d + 1, q, p);
    MulMonotone(2 * q, d, p);
  }

  /** `ln(n) * SCALE`. */
  function LnScaled(n: nat): nat
    requires n > 0
  {
    MantissaRange(n);
    Log2(n) * LN2_SCALED + LnMantissa(Mantissa(n))
  }

  function Descale(amt: nat, ln: nat): nat {
    amt * ln / SCALE
  }

  /** `CalculateConsensusScoreByBlocks`. */
  function ScoreByBlocks(amt: int, blocks: int): nat {
    if blocks <= 0 || amt <= 0 then 0 else Descale(amt, LnScaled(blocks + 1))
  }

  // ---------------------------------------------------------------------------------------------------------------
  // Monotonicity
  // ---------------------------------------------------------------------------------------------------------------

  lemma FractionMonotone(p: nat, q: nat, r: nat, s: nat)
    requires q > 0 && s > 0 && p * s <= r * q
    ensures p / q <= r / s
  {
    var k := p / q;
    assert k * q <= p;
    assert k * q * s <= p * s;
    assert q * (k * s) <= q * r;
    assert k * s <= r;
    assert r < (r / s + 1) * s;
    MulMonotone(r / s + 1, k, s);
  }

  lemma QuotientMonotone(x: nat, y: nat, d: nat)
    requires d > 0 && x <= y
    ensures x / d <= y / d
  {
    FractionMonotone(x, d, y, d);
  }

  lemma RatioMonotone(a: nat, b: nat)
    requires ONE_Q <= a <= b
    ensures Ratio(a) <= Ratio(b)
  {
    var x, y := a - ONE_Q, b - ONE_Q;
    assert x * (y + 2 * ONE_Q) <= y * (x + 2 * ONE_Q);
    assert (x * ONE_Q) * (b + ONE_Q) == ONE_Q * (x * (y + 2 * ONE_Q));
    assert (y * ONE_Q) * (a + ONE_Q) == ONE_Q * (y * (x + 2 * ONE_Q));
    FractionMonotone(x * ONE_Q, a + ONE_Q, y * ONE_Q, b + ONE_Q);
  }

  lemma MulQMonotone(x: nat, y: nat, x': nat, y': nat)
    requires x <= x' && y <= y'
    ensures MulQ(x, y) <= MulQ(x', y')
  {
    assert x * y <= x' * y <= x' * y';
    QuotientMonotone(x * y, x' * y', ONE_Q);
  }

  lemma SeriesMonotone(y: nat, z: nat)
    requires y <= z
    ensures Series(y) <= Series(z)
  {
    MulQMonotone(y, y, z, z);
    MulQMonotone(MulQ(y, y), y, MulQ(z, z), z);
    MulQMonotone(MulQ(MulQ(y, y), y), MulQ(y, y), MulQ(MulQ(z, z), z), MulQ(z, z));
  }

  lemma LnMantissaMonotone(a: nat, b: nat)
    requires ONE_Q <= a <= b
    ensures LnMantissa(a) <= LnMantissa(b)
  {
    RatioMonotone(a, b);
    SeriesMonotone(Ratio(a), Ratio(b));
    QuotientMonotone(Series(Ratio(a)) * 2 * SCALE, Series(Ratio(b)) * 2 * SCALE, ONE_Q);
  }

  /** Just below the next power of two the truncated series still falls short of `ln 2`, by 143066 units of 1e-9. */
  lemma MantissaBelowLn2(a: nat)
    requires ONE_Q <= a < 2 * ONE_Q
    ensures LnMantissa(a) <= 693004114
  {
    LnMantissaMonotone(a, 2 * ONE_Q - 1);
    assert Ratio(2 * ONE_Q - 1) == 1431655765;
    assert MulQ(1431655765, 1431655765) == 477218588;
    assert MulQ(477218588, 1431655765) == 159072862;
    assert MulQ(159072862, 477218588) == 17674762;
    assert Series(1431655765) == 1488215004;
  }

  lemma {:induction false} Log2Monotone(n: nat, m: nat)
    requires 0 < n <= m
    ensures Log2(n) <= Log2(m)
    decreases n
  {
    if n > 1 {
      Log2Monotone(n / 2, m / 2);
    }
  }

  /** The logarithm never decreases, across every power of two as well. */
  lemma LnMonotone(n: nat, m: nat)
    requires 0 < n <= m
    ensures LnScaled(n) <= LnScaled(m)
  {
    Log2Monotone(n, m);
    MantissaRange(n);
    MantissaRange(m);
    if Log2(n) == Log2(m) {
      QuotientMonotone(n * ONE_Q, m * ONE_Q, Pow2(Log2(n)));
      LnMantissaMonotone(Mantissa(n), Mantissa(m));
    } else {
      MantissaBelowLn2(Mantissa(n));
      assert (Log2(n) + 1) * LN2_SCALED <= Log2(m) * LN2_SCALED;
    }
  }

  /** `k ln 2 <= ln n < (k + 1) ln 2` with `k = floor(log2 n)`. */
  lemma LnBounds(n: nat)
    requires n > 0
    ensures Log2(n) * LN2_SCALED <= LnScaled(n) < (Log2(n) + 1) * LN2_SCALED
  {
    MantissaRange(n);
    MantissaBelowLn2(Mantissa(n));
  }

  lemma ScaledMonotone(a: nat, b: nat, l: nat, m: nat)
    requires a <= b && l <= m
    ensures Descale(a, l) <= Descale(b, m)
  {
    MulMonotone(a, b, l);
    MulMonotone(l, m, b);
    QuotientMonotone(a * l, b * m, SCALE);
  }

  /** A longer stake or a larger one never scores less. */
  lemma ScoreMonotone(amt: int, amt': int, blocks: int, blocks': int)
    requires amt <= amt' && blocks <= blocks'
    ensures ScoreByBlocks(amt, blocks) <= ScoreByBlocks(amt', blocks')
  {
    hide LnScaled, Descale, Log2, Pow2;
    if blocks > 0 && amt > 0 {
      LnMonotone(blocks + 1, blocks' + 1);
      ScaledMonotone(amt, amt', LnScaled(blocks + 1), LnScaled(blocks' + 1));
    }
  }

  /** Doubling `1 + blocks` adds exactly one `ln 2`. */
  lemma LnDoubles(n: nat)
    requires n > 0
    ensures LnScaled(2 * n) == LnScaled(n) + LN2_SCALED
  {
    var p := Pow2(Log2(n));
    assert Log2(2 * n) == 1 + Log2(n);
    FractionMonotone(n * ONE_Q, p, 2 * n * ONE_Q, 2 * p);
    FractionMonotone(2 * n * ONE_Q, 2 * p, n * ONE_Q, p);
    assert Mantissa(2 * n) == Mantissa(n);
  }

  // ---------------------------------------------------------------------------------------------------------------
  // Accuracy
  // ---------------------------------------------------------------------------------------------------------------

  /** `(a - 1) / (a + 1)` for `a = n / 2^k`, exactly. */
  function ExactRatio(n: nat): real
    requires n > 0
  {
    (n - Pow2(Log2(n))) as real / (n + Pow2(Log2(n))) as real
  }

  function Square(y: real): real {
    y * y
  }

  function Cube(y: real): real {
    y * y * y
  }

  function Fifth(y: real): real {
    y * y * y * y * y
  }

  function ExactSeries(y: real): real {
    y + Cube(y) / 3.0 + Fifth(y) / 5.0
  }

  lemma RealScale(a: real, b: real, c: real)
    requires c >= 0.0
    ensures a <= b ==> a * c <= b * c
    ensures a < b && c > 0.0 ==> a * c < b * c
  {}

  lemma RealCancel(a: real, b: real, c: real)
    requires c > 0.0
    ensures a * c <= b * c ==> a <= b
    ensures a * c < b * c ==> a < b
  {}

  lemma CastProduct(a: int, b: int)
    ensures (a * b) as real == a as real * b as real
  {}

  lemma RealQuotient(x: real, d: real)
    requires d > 0.0
    ensures x / d * d == x
  {}

  /** An integer quotient is the rational one, less than one unit short. */
  lemma Truncation(x: nat, d: nat)
    requires d > 0
    ensures (x / d) as real <= x as real / d as real < (x / d) as real + 1.0
  {
    QuotientBetween(x, d, x / d, x as real / d as real);
  }

  lemma QuotientBetween(x: nat, d: nat, q: nat, r: real)
    requires d > 0 && q == x / d && r == x as real / d as real
    ensures q as real <= r < q as real + 1.0
  {
    assert q * d <= x < (q + 1) * d;
    RealQuotient(x as real, d as real);
    CastBelow(q, d, x);
    CastAbove(q, d, x);
    RealCancel(q as real, r, d as real);
    RealCancel(r, q as real + 1.0, d as real);
  }

  lemma CastBelow(q: nat, d: nat, x: nat)
    requires q * d <= x
    ensures q as real * d as real <= x as real
  {
    CastProduct(q, d);
  }

  lemma CastAbove(q: nat, d: nat, x: nat)
    requires x < (q + 1) * d
    ensures x as real < (q as real + 1.0) * d as real
  {
    CastProduct(q + 1, d);
  }

  /** `t -> (t - q) / (t + q)` grows by at most half a unit of `1 / q` while `t` grows by one, from `q` on. */
  lemma RatioSlope(x: real, a: real, q: real, y: real, z: real)
    requires 0.0 < q <= a <= x < a + 1.0
    requires y * (x + q) == x - q && z * (a + q) == a - q
    ensures 0.0 <= y - z && q * y - q * z < 0.5
  {
    var t := q + q;
    var d := (x + q) * (a + q);
    var w := y - z;
    assert w * d == (x - q) * (a + q) - (a - q) * (x + q) == t * (x - a);
    RealScale(t, x + q, t);
    RealScale(t, a + q, x + q);
    RealCancel(0.0, w, d);
    SlopeBound(t, w, d, x - a);
    assert t * w == 2.0 * (q * y - q * z);
  }

  lemma SlopeBound(t: real, w: real, d: real, s: real)
    requires t > 0.0 && w >= 0.0 && d >= t * t && s < 1.0
    requires w * d == t * s
    ensures t * w < 1.0
  {
    RealScale(t * t, d, w);
    assert t * w * t == t * t * w;
    RealScale(s, 1.0, t);
    RealCancel(t * w, 1.0, t);
  }

  /** The exact ratio solves its equation at the exact mantissa `n q / p`. */
  lemma RatioScaled(n: real, p: real, q: real)
    requires n > 0.0 && p > 0.0 && q > 0.0
    ensures (n - p) / (n + p) * (n * q / p + q) == n * q / p - q
  {
    var y := (n - p) / (n + p);
    var r := q / p;
    assert n * q / p == n * r && p * r == q;
    assert y * (n + p) == n - p;
    assert y * ((n + p) * r) == (n - p) * r;
  }

  /** `0 <= Q y - Ratio < 3/2`. */
  lemma RatioAccuracy(n: nat)
    requires n > 0
    ensures ONE_Q <= Mantissa(n)
    ensures 0.0 <= ExactRatio(n) * ONE_Q as real - Ratio(Mantissa(n)) as real < 1.5
  {
    MantissaRange(n);
    var p := Pow2(Log2(n));
    var a := Mantissa(n);
    Truncation(n * ONE_Q, p);
    RatioScaled(n as real, p as real, ONE_Q as real);
    assert (n * ONE_Q) as real / p as real == n as real * ONE_Q as real / p as real;
    RatioRounding(n as real * ONE_Q as real / p as real, a, ExactRatio(n));
  }

  lemma RatioRounding(x: real, a: nat, y: real)
    requires ONE_Q <= a && a as real <= x < a as real + 1.0
    requires y * (x + ONE_Q as real) == x - ONE_Q as real
    ensures 0.0 <= y * ONE_Q as real - Ratio(a) as real < 1.5
  {
    var q := ONE_Q as real;
    var z := (a as real - q) / (a as real + q);
    RatioSlope(x, a as real, q, y, z);
    Truncation((a - ONE_Q) * ONE_Q, a + ONE_Q);
    assert ((a - ONE_Q) * ONE_Q) as real / (a + ONE_Q) as real == z * q;
  }

  /** A truncated product of Q32 approximations from below: errors `d`, `e` in, at most `v e + d u + d e / Q + 1` out.
      */
  lemma ProductAccuracy(x: nat, y: nat, u: real, v: real, d: real, e: real)
    requires 0.0 <= u * ONE_Q as real - x as real <= d
    requires 0.0 <= v * ONE_Q as real - y as real <= e
    requires 0.0 <= u && 0.0 <= v
    ensures 0.0 <= u * v * ONE_Q as real - MulQ(x, y) as real < u * e + v * d + 1.0
  {
    Truncation(x * y, ONE_Q);
    var q := ONE_Q as real;
    var exact := x as real * y as real / q;
    assert (x * y) as real / q == exact;
    assert MulQ(x, y) as real <= exact < MulQ(x, y) as real + 1.0;
    ProductError(x as real, y as real, u, v, d, e, q);
  }

  lemma ProductError(x: real, y: real, u: real, v: real, d: real, e: real, q: real)
    requires q > 0.0 && 0.0 <= x && 0.0 <= u && 0.0 <= v
    requires x <= u * q <= x + d && y <= v * q <= y + e
    ensures x * y / q <= u * v * q <= x * y / q + u * e + v * d
  {
    var a, b := u * q - x, v * q - y;
    var gap := u * v * q - x * y / q;
    assert x * y / q * q == x * y;
    assert gap * q == (u * q) * (v * q) - x * y == a * (v * q) + x * b;
    RealScale(0.0, a, v * q);
    RealScale(a, d, v * q);
    RealScale(0.0, b, x);
    RealScale(b, e, x);
    RealScale(x, u * q, e);
    assert d * (v * q) + e * (u * q) == (u * e + v * d) * q;
    RealCancel(0.0, gap, q);
    RealCancel(gap, u * e + v * d, q);
  }

  /** The truncated Q32 series is never above the exact `y + y^3/3 + y^5/5` and less than 5 units of 2^-32 below it. */
  lemma SeriesAccuracy(n: nat)
    requires n > 0
    ensures ONE_Q <= Mantissa(n)
    ensures 0.0 <= ExactSeries(ExactRatio(n)) * ONE_Q as real - Series(Ratio(Mantissa(n))) as real < 5.0
  {
    RatioAccuracy(n);
    ExactRatioBelowThird(n);
    SeriesError(Ratio(Mantissa(n)), ExactRatio(n));
  }

  /** The scaled logarithm is below `k ln 2 + 2 (y + y^3/3 + y^5/5)` by less than 4 units of 1e-9. */
  lemma LnAccuracy(n: nat)
    requires n > 0
    ensures var exact := Log2(n) as real * LN2_SCALED as real + 2.0 * SCALE as real * ExactSeries(ExactRatio(n));
            0.0 <= exact - LnScaled(n) as real < 4.0
  {
    SeriesAccuracy(n);
    DescaleError(Series(Ratio(Mantissa(n))), ExactSeries(ExactRatio(n)));
  }

  lemma DescaleError(x: nat, s: real)
    requires 0.0 <= s * ONE_Q as real - x as real < 5.0
    ensures 0.0 <= 2.0 * SCALE as real * s - (x * 2 * SCALE / ONE_Q) as real < 4.0
  {
    Truncation(x * 2 * SCALE, ONE_Q);
  }

  lemma SeriesError(x: nat, y: real)
    requires 0.0 <= y * ONE_Q as real - x as real < 1.5
    requires 0.0 <= y <= 1.0 / 3.0
    ensures 0.0 <= ExactSeries(y) * ONE_Q as real - Series(x) as real < 5.0
  {
    hide MulQ, Square, Cube, Fifth;
    SquareAccuracy(x, y);
    CubeAccuracy(x, MulQ(x, x), y);
    FifthAccuracy(MulQ(MulQ(x, x), x), MulQ(x, x), y);
    SumError(y, Cube(y), Fifth(y), ONE_Q as real, x, MulQ(MulQ(x, x), x), MulQ(MulQ(MulQ(x, x), x), MulQ(x, x)));
  }

  lemma SquareAccuracy(x: nat, y: real)
    requires 0.0 <= y * ONE_Q as real - x as real < 1.5
    requires 0.0 <= y <= 1.0 / 3.0
    ensures 0.0 <= Square(y) * ONE_Q as real - MulQ(x, x) as real < 2.0
  {
    hide MulQ;
    ProductAccuracy(x, x, y, y, 1.5, 1.5);
  }

  lemma CubeAccuracy(x: nat, x2: nat, y: real)
    requires 0.0 <= y * ONE_Q as real - x as real < 1.5
    requires 0.0 <= Square(y) * ONE_Q as real - x2 as real < 2.0
    requires 0.0 <= y <= 1.0 / 3.0
    ensures 0.0 <= Cube(y) * ONE_Q as real - MulQ(x2, x) as real < 2.0
  {
    hide MulQ, Square, Cube;
    PowersBelow(y);
    TermAccuracy(x2, x, Square(y), y);
    PowersAre(y);
  }

  lemma FifthAccuracy(x3: nat, x2: nat, y: real)
    requires 0.0 <= Cube(y) * ONE_Q as real - x3 as real < 2.0
    requires 0.0 <= Square(y) * ONE_Q as real - x2 as real < 2.0
    requires 0.0 <= y <= 1.0 / 3.0
    ensures 0.0 <= Fifth(y) * ONE_Q as real - MulQ(x3, x2) as real < 2.0
  {
    hide MulQ, Square, Cube, Fifth;
    PowersBelow(y);
    TermAccuracy(x3, x2, Cube(y), Square(y));
    PowersAre(y);
  }

  lemma PowersAre(y: real)
    ensures Cube(y) == Square(y) * y && Fifth(y) == Cube(y) * Square(y)
  {}

  lemma PowersBelow(y: real)
    requires 0.0 <= y <= 1.0 / 3.0
    ensures 0.0 <= Square(y) <= 1.0 / 9.0
    ensures 0.0 <= Cube(y) <= 1.0 / 27.0
  {
    RealScale(y, 1.0 / 3.0, y);
    assert y * y <= 1.0 / 3.0 * y;
    RealScale(y * y, 1.0 / 9.0, y);
    assert y * y * y <= 1.0 / 9.0 * y;
  }

  /** One more product of the series: both errors stay below two units. */
  lemma TermAccuracy(x: nat, y: nat, u: real, v: real)
    requires 0.0 <= u * ONE_Q as real - x as real < 2.0
    requires 0.0 <= v * ONE_Q as real - y as real < 2.0
    requires 0.0 <= u && 0.0 <= v && u + v < 0.5
    ensures 0.0 <= u * v * ONE_Q as real - MulQ(x, y) as real < 2.0
  {
    hide MulQ;
    ProductAccuracy(x, y, u, v, 2.0, 2.0);
    var gap := u * v * ONE_Q as real - MulQ(x, y) as real;
    assert 0.0 <= gap < u * 2.0 + v * 2.0 + 1.0;
  }

  lemma SumError(y: real, y3: real, y5: real, q: real, x: nat, x3: nat, x5: nat)
    requires 0.0 <= y * q - x as real < 1.5
    requires 0.0 <= y3 * q - x3 as real < 2.0
    requires 0.0 <= y5 * q - x5 as real < 2.0
    ensures 0.0 <= (y + y3 / 3.0 + y5 / 5.0) * q - (x + x3 / 3 + x5 / 5) as real < 5.0
  {
    Truncation(x3, 3);
    Truncation(x5, 5);
    assert (y + y3 / 3.0 + y5 / 5.0) * q == y * q + y3 * q / 3.0 + y5 * q / 5.0;
  }

  lemma ExactRatioBelowThird(n: nat)
    requires n > 0
    ensures 0.0 <= ExactRatio(n) <= 1.0 / 3.0
  {
    var p := Pow2(Log2(n));
    ThirdAtMost((n - p) as real, (n + p) as real);
  }

  lemma ThirdAtMost(u: real, v: real)
    requires 0.0 <= 3.0 * u <= v && v > 0.0
    ensures 0.0 <= u / v <= 1.0 / 3.0
  {
    var y := u / v;
    assert y * v == u;
    RealCancel(0.0, y, v);
    assert 1.0 / 3.0 * v == v / 3.0;
    RealCancel(y, 1.0 / 3.0, v);
  }

  // ---------------------------------------------------------------------------------------------------------------
  // The score
  // ---------------------------------------------------------------------------------------------------------------

  /** The score is amount times logarithm, rounded down to a whole token unit; there is none for nothing or for no time.
      */
  lemma ScoreIs(amt: int, blocks: int)
    ensures var s := ScoreByBlocks(amt, blocks);
            && (amt <= 0 || blocks <= 0 ==> s == 0)
            && (amt > 0 && blocks > 0 ==> SCALE * s <= amt * LnScaled(1 + blocks) < SCALE * (s + 1))
  {
    hide LnScaled;
  }

  lemma {:induction false} LnOfPower(k: nat)
    ensures LnScaled(Pow2(k)) == k * LN2_SCALED
  {
    hide LnMantissa;
    if k == 0 {
      assert Log2(1) == 0 && Mantissa(1) == ONE_Q;
      assert LnMantissa(ONE_Q) == 0 by { LnOfOne(); }
    } else {
      LnOfPower(k - 1);
      LnDoubles(Pow2(k - 1));
    }
  }

  lemma LnOfOne()
    ensures LnMantissa(ONE_Q) == 0
  {
    assert Ratio(ONE_Q) == 0 && MulQ(0, 0) == 0 && Series(0) == 0;
  }

  /** A stake of `2^k - 1` blocks scores `k` times the amount times `ln 2`, rounded down. */
  lemma ScoreOfPower(amt: nat, k: nat)
    requires amt > 0 && k > 0
    ensures Pow2(k) >= 2
    ensures var s := ScoreByBlocks(amt, Pow2(k) - 1);
            SCALE * s <= amt * (k * LN2_SCALED) < SCALE * (s + 1)
  {
    hide LnScaled;
    LnOfPower(k);
    ScoreIs(amt, Pow2(k) - 1);
  }

  /** Against the exact `amt * (k ln 2 + 2 (y + y^3/3 + y^5/5))` the score is short by less than one token unit and 4e-9
      of the amount, and never above it. */
  lemma ScoreAccuracy(amt: nat, blocks: nat)
    requires amt > 0 && blocks > 0
    ensures var n := 1 + blocks;
            var exact := Log2(n) as real * LN2_SCALED as real + 2.0 * SCALE as real * ExactSeries(ExactRatio(n));
            var s := ScoreByBlocks(amt, blocks);
            0.0 <= amt as real * exact - SCALE as real * s as real < 4.0 * amt as real + SCALE as real
  {
    hide LnScaled, ExactSeries, ExactRatio, ScoreByBlocks, Log2;
    var n := 1 + blocks;
    var exact := Log2(n) as real * LN2_SCALED as real + 2.0 * SCALE as real * ExactSeries(ExactRatio(n));
    LnAccuracy(n);
    ScoreIs(amt, blocks);
    ScoreGap(amt, LnScaled(n), ScoreByBlocks(amt, blocks), exact);
  }

  lemma ScoreGap(amt: nat, ln: nat, s: nat, exact: real)
    requires SCALE * s <= amt * ln < SCALE * (s + 1) && 0.0 <= exact - ln as real < 4.0 && amt > 0
    ensures 0.0 <= amt as real * exact - SCALE as real * s as real < 4.0 * amt as real + SCALE as real
  {
    var product := amt * ln;
    CastProduct(amt, ln);
    Between(product, s);
    Gap(amt as real, exact, ln as real, product as real, SCALE as real * s as real, 4.0);
  }

  lemma Between(product: int, s: nat)
    requires SCALE * s <= product < SCALE * (s + 1)
    ensures SCALE as real * s as real <= product as real < SCALE as real * s as real + SCALE as real
  {}

  lemma Gap(a: real, x: real, l: real, product: real, q: real, c: real)
    requires a > 0.0 && product == a * l && 0.0 <= x - l < c
    requires q <= product < q + SCALE as real
    ensures 0.0 <= a * x - q < c * a + SCALE as real
  {
    Within(a, l, x, c);
    LinearGap(product, a * x, c * a, q);
  }

  lemma Within(a: real, l: real, x: real, c: real)
    requires a > 0.0 && l <= x && x - l < c
    ensures a * l <= a * x && a * x - a * l < c * a
  {
    var gap := x - l;
    assert a * x - a * l == gap * a;
    RealScale(gap, c, a);
    RealScale(0.0, gap, a);
  }

  lemma LinearGap(al: real, ax: real, ca: real, q: real)
    requires al <= ax && ax - al < ca && q <= al < q + SCALE as real
    ensures 0.0 <= ax - q < ca + SCALE as real
  {}
}
