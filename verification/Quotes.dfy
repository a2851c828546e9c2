/** The integer arithmetic of pools and curves, without tables. */
module Quotes {
  import opened Results

  const MINI_LIQUIDITY: nat := 1000

  /** `big.Int.Sqrt`. */
  function Isqrt(n: nat): (r: nat)
    ensures r * r <= n < (r + 1) * (r + 1)
  {
    if n == 0 then 0
    else
      var t := Isqrt(n / 4);
      IsqrtStep(n, t);
      if (2 * t + 1) * (2 * t + 1) <= n then 2 * t + 1 else 2 * t
  }

  lemma IsqrtStep(n: nat, t: nat)
    requires t * t <= n / 4 < (t + 1) * (t + 1)
    ensures (2 * t) * (2 * t) <= n < (2 * t + 2) * (2 * t + 2)
  {
    assert (2 * t) * (2 * t) == 4 * (t * t);
    assert (2 * t + 2) * (2 * t + 2) == 4 * ((t + 1) * (t + 1));
  }

  /** What of `amt` enters the price: three times a floored thousandth stays behind as fee. */
  function AfterFee(amt: nat): nat {
    amt - 3 * (amt / 1000)
  }

  /** Constant-product output for `x` in, against reserves `rin` and `rout`. */
  function Out(x: nat, rin: nat, rout: nat): nat
    requires x > 0
  {
    x * rout / (rin + x)
  }

  /** Liquidity for what an add pays in, at the cached reserves. */
  function Minted(a0: nat, a1: nat, r0: nat, r1: nat, total: nat): nat
    requires r0 > 0 && r1 > 0
  {
    var l0, l1 := a0 * total / r0, a1 * total / r1;
    if l0 > l1 then l1 else l0
  }

  /** The two amounts an add settles on; big.Int division by a zero reserve would panic, and counts as failure. */
  function AddAmounts(amt0: nat, amt1: nat, min0: int, min1: int, r0: nat, r1: nat): Result<(nat, nat)> {
    if r0 == 0 || r1 == 0 then Failed
    else
      var b := amt0 * r1 / r0;
      if b >= min1 && amt1 >= b then Ok((amt0, b))
      else
        var a := amt1 * r0 / r1;
        if a >= min0 && amt0 >= a then Ok((a, amt1)) else Failed
  }

  /** One side of what `l` liquidity out of `total` redeems. */
  function Redeemed(l: nat, r: nat, total: nat): nat
    requires total > 0
  {
    l * r / total
  }

  // ---------------------------------------------------------------------------------------------------------------
  // What the quotients are
  // ---------------------------------------------------------------------------------------------------------------

  /** `q` is `n` over `d`, rounded down. */
  predicate FloorOf(q: int, n: int, d: int) {
    q * d <= n < (q + 1) * d
  }

  /** It is the only one. */
  lemma FloorUnique(q: int, r: int, n: int, d: int)
    requires d > 0 && FloorOf(q, n, d) && FloorOf(r, n, d)
    ensures q == r
  {
    if q < r {
      MulMono(q + 1, r, d);
    }
    if r < q {
      MulMono(r + 1, q, d);
    }
  }

  lemma FloorIs(n: int, d: int)
    requires d > 0
    ensures FloorOf(n / d, n, d)
  {}

  /** `l` is the most that stays in proportion to both payments. */
  predicate LargestFor(l: nat, v0: nat, v1: nat, r0: nat, r1: nat, total: nat) {
    && l * r0 <= v0 * total && l * r1 <= v1 * total
    && ((l + 1) * r0 > v0 * total || (l + 1) * r1 > v1 * total)
  }

  lemma MintedIs(v0: nat, v1: nat, r0: nat, r1: nat, total: nat)
    requires r0 > 0 && r1 > 0
    ensures LargestFor(Minted(v0, v1, r0, r1, total), v0, v1, r0, r1, total)
  {
    var l0, l1 := v0 * total / r0, v1 * total / r1;
    FloorIs(v0 * total, r0);
    FloorIs(v1 * total, r1);
    MulMono(l0, l1, r1);
    MulMono(l1, l0, r0);
  }

  /** The offer is settled on its first amount with the second in proportion when that is between the minimum and the
      offer, and otherwise the other way round. */
  ghost predicate SettledOn(v0: nat, v1: nat, amt0: nat, amt1: nat, min0: int, min1: int, r0: nat, r1: nat) {
    || (v0 == amt0 && FloorOf(v1, amt0 * r1, r0) && min1 <= v1 <= amt1)
    || (v1 == amt1 && FloorOf(v0, amt1 * r0, r1) && min0 <= v0 <= amt0
        && forall b :: FloorOf(b, amt0 * r1, r0) ==> !(min1 <= b <= amt1))
  }

  lemma SettledIs(amt0: nat, amt1: nat, min0: int, min1: int, r0: nat, r1: nat)
    requires AddAmounts(amt0, amt1, min0, min1, r0, r1).Ok?
    ensures var v := AddAmounts(amt0, amt1, min0, min1, r0, r1).value;
            SettledOn(v.0, v.1, amt0, amt1, min0, min1, r0, r1)
  {
    FloorIs(amt0 * r1, r0);
    FloorIs(amt1 * r0, r1);
    forall b | FloorOf(b, amt0 * r1, r0)
      ensures b == amt0 * r1 / r0
    {
      FloorUnique(b, amt0 * r1 / r0, amt0 * r1, r0);
    }
  }

  // ---------------------------------------------------------------------------------------------------------------
  // Steps of one pool
  // ---------------------------------------------------------------------------------------------------------------

  /** A pool seen from its row: cached reserves and liquidity. */
  datatype Shape = Shape(r0: nat, r1: nat, total: nat)

  /** `total^2 <= r0 r1`, and at least the minimum liquidity is out. */
  ghost predicate Sound(p: Shape) {
    MINI_LIQUIDITY <= p.total && p.total * p.total <= p.r0 * p.r1
  }

  /** The value behind one unit of liquidity did not fall: `r0 r1 / total^2` is no smaller. */
  ghost predicate NoDilution(p: Shape, q: Shape) {
    p.r0 * p.r1 * (q.total * q.total) <= q.r0 * q.r1 * (p.total * p.total)
  }

  lemma MulMono(a: int, b: int, c: nat)
    ensures a <= b ==> a * c <= b * c
    ensures a < b && c > 0 ==> a * c < b * c
  {}

  lemma ProductMono(a: nat, b: nat, c: nat, d: nat)
    requires a <= b && c <= d
    ensures a * c <= b * d
  {
    MulMono(a, b, c);
    MulMono(c, d, b);
  }

  lemma CancelSquare(a: nat, b: nat, t: nat)
    requires t > 0 && a * (t * t) <= b * (t * t)
    ensures a <= b
  {
    MulMono(b + 1, a, t * t);
  }

  lemma SoundPositive(p: Shape)
    requires Sound(p)
    ensures p.r0 > 0 && p.r1 > 0
  {
    ProductMono(1000, p.total, 1000, p.total);
  }

  /** A step that does not dilute keeps the pool sound. */
  lemma SoundStep(p: Shape, q: Shape)
    requires Sound(p) && NoDilution(p, q) && MINI_LIQUIDITY <= q.total
    ensures Sound(q)
  {
    var t, u := p.total * p.total, q.total * q.total;
    ProductMono(t, p.r0 * p.r1, u, u);
    assert t * u <= q.r0 * q.r1 * t;
    CancelSquare(u, q.r0 * q.r1, p.total);
  }

  lemma NoDilutionTrans(p: Shape, q: Shape, s: Shape)
    requires q.total > 0
    requires NoDilution(p, q) && NoDilution(q, s)
    ensures NoDilution(p, s)
  {
    assert q.total * q.total > 0;
    CrossTrans(p.r0 * p.r1, q.r0 * q.r1, s.r0 * s.r1, p.total * p.total, q.total * q.total, s.total * s.total);
  }

  lemma CrossTrans(a: nat, b: nat, c: nat, t: nat, u: nat, v: nat)
    requires u > 0 && a * u <= b * t && b * v <= c * u
    ensures a * v <= c * t
  {
    MulMono(a * u, b * t, v);
    MulMono(b * v, c * u, t);
    Swapped(a, u, v);
    Swapped(b, t, v);
    Swapped(c, u, t);
    assert a * v * u <= c * t * u;
    MulMono(c * t, a * v, u);
  }

  lemma Swapped(a: nat, b: nat, c: nat)
    ensures a * b * c == a * c * b
  {}

  /** Both sides grow at least in proportion to the liquidity: nobody is diluted. */
  lemma ProportionalStep(p: Shape, q: Shape)
    requires p.r0 * q.total <= q.r0 * p.total
    requires p.r1 * q.total <= q.r1 * p.total
    ensures NoDilution(p, q)
  {
    ProductMono(p.r0 * q.total, q.r0 * p.total, p.r1 * q.total, q.r1 * p.total);
    assert (p.r0 * q.total) * (p.r1 * q.total) == p.r0 * p.r1 * (q.total * q.total);
    assert (q.r0 * p.total) * (q.r1 * p.total) == q.r0 * q.r1 * (p.total * p.total);
  }

  lemma FloorBelow(x: nat, d: nat)
    requires d > 0
    ensures x / d * d <= x
  {}

  /** Creating a pool: the liquidity is the floored square root of the product. */
  lemma CreateSound(a0: nat, a1: nat, q: Shape)
    requires Isqrt(a0 * a1) > MINI_LIQUIDITY
    requires q.total == Isqrt(a0 * a1) && q.r0 >= a0 && q.r1 >= a1
    ensures Sound(q)
  {
    ProductMono(a0, q.r0, a1, q.r1);
  }

  /** An add that pays at least what its liquidity was computed from. */
  lemma AddStep(p: Shape, a0: nat, a1: nat, q: Shape)
    requires p.r0 > 0 && p.r1 > 0
    requires q.total == p.total + Minted(a0, a1, p.r0, p.r1, p.total)
    requires q.r0 >= p.r0 + a0 && q.r1 >= p.r1 + a1
    ensures NoDilution(p, q)
  {
    var l := Minted(a0, a1, p.r0, p.r1, p.total);
    AddSide(l, a0, p.r0, p.total, q.r0);
    AddSide(l, a1, p.r1, p.total, q.r1);
    ProportionalStep(p, q);
  }

  lemma AddSide(l: nat, a: nat, r: nat, total: nat, r': nat)
    requires r > 0 && l <= a * total / r && r' >= r + a
    ensures r * (total + l) <= r' * total
  {
    FloorBelow(a * total, r);
    MulMono(l, a * total / r, r);
    assert r * (total + l) == r * total + l * r;
    MulMono(r + a, r', total);
    assert (r + a) * total == r * total + a * total;
  }

  /** A remove that pays out the floored share. */
  lemma RemoveStep(p: Shape, l: nat, q: Shape)
    requires 0 < p.total && l <= p.total
    requires q.total == p.total - l
    requires q.r0 >= p.r0 - Redeemed(l, p.r0, p.total) && q.r1 >= p.r1 - Redeemed(l, p.r1, p.total)
    ensures NoDilution(p, q)
  {
    RemoveSide(l, p.r0, p.total, q.r0);
    RemoveSide(l, p.r1, p.total, q.r1);
    ProportionalStep(p, q);
  }

  lemma RemoveSide(l: nat, r: nat, total: nat, r': nat)
    requires 0 < total && l <= total && r' >= r - Redeemed(l, r, total)
    ensures r * (total - l) <= r' * total
  {
    FloorBelow(l * r, total);
    MulMono(r - Redeemed(l, r, total), r', total);
    assert (r - Redeemed(l, r, total)) * total == r * total - l * r / total * total;
    assert r * (total - l) == r * total - l * r;
  }

  lemma OutBelow(x: nat, rin: nat, rout: nat, o: nat)
    requires x > 0 && o * (rin + x) <= x * rout
    ensures o <= rout
    ensures rin > 0 && rout > 0 ==> o < rout
  {
    Expand(rout, rin, x);
    MulMono(rout + 1, o, rin + x);
    MulMono(rout, o, rin + x);
    assert (rout + 1) * (rin + x) == rout * (rin + x) + rin + x;
    if rin > 0 && rout > 0 {
      assert rout * rin > 0;
    }
  }

  lemma Expand(a: int, b: int, c: int)
    ensures a * (b + c) == a * b + c * a
  {}

  /** The output is below the reserve, and the product of the reserves does not fall. */
  lemma OutKeepsProduct(x: nat, rin: nat, rout: nat)
    requires x > 0
    ensures Out(x, rin, rout) <= rout
    ensures rin > 0 && rout > 0 ==> Out(x, rin, rout) < rout
    ensures rin * rout <= (rin + x) * (rout - Out(x, rin, rout))
  {
    var o := Out(x, rin, rout);
    FloorBelow(x * rout, rin + x);
    OutBelow(x, rin, rout, o);
    assert (rin + x) * (rout - o) == (rin + x) * rout - o * (rin + x);
    Expand(rout, rin, x);
  }

  /** A swap that takes in at least what entered the price: the product of the reserves does not fall. */
  lemma SwapStep(x: nat, rin: nat, rout: nat, rin': nat, rout': nat)
    requires x > 0 && rin' >= rin + x && rout' >= rout - Out(x, rin, rout)
    ensures rin * rout <= rin' * rout'
  {
    OutKeepsProduct(x, rin, rout);
    ProductMono(rin + x, rin', rout - Out(x, rin, rout), rout');
  }

  lemma SameTotal(p: Shape, q: Shape)
    requires p.total == q.total && p.total > 0
    ensures NoDilution(p, q) <==> p.r0 * p.r1 <= q.r0 * q.r1
  {
    var t := p.total * p.total;
    MulMono(p.r0 * p.r1, q.r0 * q.r1, t);
    if NoDilution(p, q) {
      CancelSquare(p.r0 * p.r1, q.r0 * q.r1, p.total);
    }
  }

  /** With the same liquidity out, nobody took one token out of a pool without leaving more of the other. */
  lemma NoFreeLunch(p: Shape, q: Shape)
    requires Sound(p) && NoDilution(p, q) && p.total == q.total
    ensures q.r0 < p.r0 ==> q.r1 > p.r1
    ensures q.r1 < p.r1 ==> q.r0 > p.r0
  {
    SoundPositive(p);
    SameTotal(p, q);
    if q.r0 < p.r0 && q.r1 <= p.r1 {
      StrictProduct(q.r0, p.r0, q.r1, p.r1);
    }
    if q.r1 < p.r1 && q.r0 <= p.r0 {
      StrictProduct(q.r1, p.r1, q.r0, p.r0);
    }
  }

  lemma StrictProduct(a: nat, b: nat, c: nat, d: nat)
    requires a < b && c <= d && d > 0
    ensures a * c < b * d
  {
    MulMono(a, b, d);
    MulMono(c, d, a);
  }
}
