/** The other half of the StakeV2 accounting: what the blocks emit reaches the stakers, and each of them gets a share in
    proportion to the stake. */
module Dues {
  import opened Names
  import opened Ledger
  import opened Quotes
  import opened Farms

  // ---------------------------------------------------------------------------------------------------------------
  // One update
  // ---------------------------------------------------------------------------------------------------------------

  /** The update accrues, per unit staked and to the last unit of 1 / SCALE, what the blocks since the last one emit; it
      does nothing at an earlier height or after the last block, and only moves the clock while nothing is staked. */
  lemma UpdateAccrues(f: Farm, height: nat)
    ensures var g := Updated(f, height);
            && (height <= f.lastReward || f.last < height ==> g == f)
            && (f.lastReward < height <= f.last ==> g == f.(acc := g.acc, lastReward := height) && g.acc >= f.acc)
            && (f.lastReward < height <= f.last && f.total == 0 ==> g.acc == f.acc)
            && (f.lastReward < height <= f.last && f.total > 0 ==>
                  FloorOf(g.acc - f.acc, SCALE * (f.each * (height - f.lastReward)), f.total))
  {
    if f.lastReward < height <= f.last && f.total > 0 {
      var blocks := height - f.lastReward;
      ShareNonNegative(f, blocks);
      assert blocks * f.each * SCALE == SCALE * (f.each * blocks);
      FloorIs(SCALE * (f.each * blocks), f.total);
    }
  }

  /** The first stake starts the clock, for as many blocks as the reward lasts. */
  lemma ClockStarts(f: Farm, height: nat)
    requires f.each > 0
    ensures var g := Started(f, height);
            && (f.lastReward > 0 ==> g == f)
            && (f.lastReward == 0 ==> g == f.(lastReward := height, last := g.last, first := height)
                                      && g.last >= height && FloorOf(g.last - height, f.reward, f.each))
  {
    FloorIs(f.reward, f.each);
  }

  /** A farm is created if and only if it pays something each block, at least one block's worth, and its maker has it.
      */
  lemma CreateIff(tokens: Tokens, id: string, holder: Signer, tick0: Tick, tick1: Tick, reward: int, each: int)
    ensures var r := Create(tokens, id, holder, tick0, tick1, reward, each);
            && (r.Ok? <==> 1 <= each <= reward <= Balance(tokens, tick1, holder))
            && (r.Ok? ==>
                  && r.value == Farm(id, tick0, tick1, reward, each, 0, 0, 0, 0, map[], r.value.tokens, 0, 0, 0)
                  && forall t, a :: Balance(r.value.tokens, t, a) == Balance(tokens, t, a)
                       + (if t == tick1 && a == FarmReserves(id) then reward else 0)
                       - (if t == tick1 && a == holder then reward else 0))
  {
    if 1 <= reward <= Balance(tokens, tick1, holder) {
      TransferDoes(tokens, tick1, holder, FarmReserves(id), reward);
    }
  }

  // ---------------------------------------------------------------------------------------------------------------
  // What one staker is due
  // ---------------------------------------------------------------------------------------------------------------

  /** One payment, and no other balance changed. */
  ghost predicate Moved(ts: Tokens, ts': Tokens, tick: Tick, from: Address, to: Address, amt: int) {
    forall t, a :: Balance(ts', t, a) == Balance(ts, t, a)
      + (if t == tick && a == to then amt else 0) - (if t == tick && a == from then amt else 0)
  }

  lemma TransferIffHas(ts: Tokens, tick: Tick, from: Address, to: Address, amt: int)
    requires from != to
    ensures Transfer(ts, tick, from, to, amt).Ok? <==> 1 <= amt <= Balance(ts, tick, from)
    ensures Transfer(ts, tick, from, to, amt).Ok? ==> Moved(ts, Transfer(ts, tick, from, to, amt).value, tick, from, to, amt)
  {
    if 1 <= amt <= Balance(ts, tick, from) {
      TransferDoes(ts, tick, from, to, amt);
    }
  }

  /** What a claim would pay: what is pending, and what the stake has earned beyond its debt. */
  function Due(f: Farm, k: Signer): int
    requires k in f.stakers
  {
    f.stakers[k].pending + f.stakers[k].amt * f.acc / SCALE - f.stakers[k].debt
  }

  lemma DueIs(f: Farm, k: Signer)
    requires k in f.stakers
    ensures Due(f, k) == f.stakers[k].pending + Earned(f.stakers[k].amt, f.acc) - f.stakers[k].debt
  {}

  /** While the stakes stand still, a due grows by the staker's share of the emission, to less than one unit above, and
      less than one unit and the stake's own 1 / SCALE below. */
  lemma DueGrows(f: Farm, k: Signer, height: nat)
    requires k in f.stakers && f.stakers[k].amt <= f.total && f.total > 0 && f.lastReward < height <= f.last
    ensures k in Updated(f, height).stakers
    ensures var grown := Due(Updated(f, height), k) - Due(f, k);
            var share := f.stakers[k].amt * (f.each * (height - f.lastReward));
            && f.total * grown < share + f.total
            && SCALE * (f.total * grown) > SCALE * share - f.stakers[k].amt * f.total - SCALE * f.total
  {
    hide Updated;
    UpdateAccrues(f, height);
    var g := Updated(f, height);
    GrowthBounds(f.stakers[k].amt, f.acc, g.acc, f.total, f.each * (height - f.lastReward));
  }

  lemma GrowthBounds(a: nat, acc: nat, acc': nat, total: nat, emitted: int)
    requires acc <= acc' && total > 0 && emitted >= 0 && FloorOf(acc' - acc, SCALE * emitted, total)
    ensures var q := a * acc' / SCALE - a * acc / SCALE;
            && total * q < a * emitted + total
            && SCALE * (total * q) > SCALE * (a * emitted) - a * total - SCALE * total
  {
    var s, q := acc' - acc, a * acc' / SCALE - a * acc / SCALE;
    FloorsApart(a, acc, acc');
    Scaled(a * s - SCALE, SCALE * q, total);
    Scaled(SCALE * q, a * s + SCALE, total);
    ShareBounds(a, s, total, emitted);
    Spread(a * s, SCALE, total);
    Regroup(SCALE, q, total);
  }

  lemma FloorsApart(a: nat, acc: nat, acc': nat)
    requires acc <= acc'
    ensures a * (acc' - acc) - SCALE < SCALE * (a * acc' / SCALE - a * acc / SCALE) < a * (acc' - acc) + SCALE
  {
    MulFloor(a * acc, SCALE);
    MulFloor(a * acc', SCALE);
    assert a * (acc' - acc) == a * acc' - a * acc;
  }

  /** The accumulator's step, times the stake and the total, against the stake's share. */
  lemma ShareBounds(a: nat, s: nat, total: nat, emitted: int)
    requires total > 0 && emitted >= 0 && FloorOf(s, SCALE * emitted, total)
    ensures SCALE * (a * emitted) - a * total <= a * s * total <= SCALE * (a * emitted)
  {
    MulMono(s * total, SCALE * emitted, a);
    assert (s + 1) * total == s * total + total;
    MulMono(SCALE * emitted - total, s * total, a);
    assert s * total * a == a * s * total;
    assert SCALE * emitted * a == SCALE * (a * emitted);
    assert (SCALE * emitted - total) * a == SCALE * emitted * a - a * total;
  }

  lemma Spread(x: int, c: int, total: int)
    ensures (x - c) * total == x * total - c * total && (x + c) * total == x * total + c * total
  {}

  lemma Regroup(c: int, q: int, total: int)
    ensures c * q * total == c * (total * q)
  {}

  lemma Scaled(x: int, y: int, c: nat)
    requires x < y && c > 0
    ensures x * c < y * c
  {}

  lemma NothingEarned(acc: nat)
    ensures Earned(0, acc) == 0
  {}

  /** A stake changes nobody's due, and the stake of nobody else. */
  lemma StakeDues(f: Farm, holder: Signer, amt: int, height: nat)
    requires Valid(f) && Staked(f, holder, amt, height).Ok?
    ensures var g, h := Updated(Started(f, height), height), Staked(f, holder, amt, height).value;
            var was := if holder in g.stakers then g.stakers[holder].amt else 0;
            && h.stakers.Keys == g.stakers.Keys + {holder}
            && h.acc == g.acc && h.total == g.total + amt && h.paid == g.paid
            && h.stakers[holder].amt == was + amt
            && Due(h, holder) == (if holder in g.stakers then Due(g, holder) else 0)
            && (holder !in g.stakers ==> h.stakers[holder].unlock == height + g.last)
            && (holder in g.stakers ==> h.stakers[holder].unlock == g.stakers[holder].unlock)
            && (forall k <- g.stakers :: k != holder ==> h.stakers[k] == g.stakers[k])
            && 1 <= amt <= Balance(f.tokens, f.tick0, holder)
            && Moved(f.tokens, h.tokens, f.tick0, holder, Home(f), amt)
  {
    hide Started, Updated, Sum, Transfer, Earned, Due, Settled, Balance, Moved;
    ClockStarts(f, height);
    UpdateAccrues(Started(f, height), height);
    TransferIffHas(f.tokens, f.tick0, holder, Home(f), amt);
    StartedValid(f, height);
    UpdatedValid(Started(f, height), height);
    var g := Updated(Started(f, height), height);
    SettledBy(g, holder, height);
    DueIs(Staked(f, holder, amt, height).value, holder);
    if holder in g.stakers {
      DueIs(g, holder);
    } else {
      assert Earned(0, g.acc) == 0 by { NothingEarned(g.acc); }
    }
  }

  /** An unstake changes nobody's due either. */
  lemma UnstakeDues(f: Farm, holder: Signer, amt: int, height: nat)
    requires Valid(f) && Unstaked(f, holder, amt, height).Ok?
    ensures var g, h := Updated(f, height), Unstaked(f, holder, amt, height).value;
            && holder in g.stakers && h.stakers.Keys == g.stakers.Keys
            && h.acc == g.acc && h.total == g.total - amt && h.paid == g.paid
            && h.stakers[holder].amt == g.stakers[holder].amt - amt
            && h.stakers[holder].unlock == g.stakers[holder].unlock
            && Due(h, holder) == Due(g, holder)
            && (forall k <- g.stakers :: k != holder ==> h.stakers[k] == g.stakers[k])
            && Moved(f.tokens, h.tokens, f.tick0, Home(f), holder, amt)
  {
    hide Updated, Sum, Transfer, Earned, Due, Settled, Balance, Moved;
    UpdatedValid(f, height);
    UpdateAccrues(f, height);
    var g := Updated(f, height);
    TransferIffHas(f.tokens, f.tick0, Home(f), holder, amt);
    SettledBy(g, holder, height);
    DueIs(g, holder);
    DueIs(Unstaked(f, holder, amt, height).value, holder);
  }

  /** A claim pays exactly what is due, when that is something and the address has it; then nothing is due. */
  lemma ClaimDues(f: Farm, holder: Signer, height: nat)
    requires Valid(f) && holder in f.stakers
    ensures var g := Updated(f, height);
            && holder in g.stakers && g.stakers == f.stakers
            && (Claimed(f, holder, height).Ok? <==> 1 <= Due(g, holder) <= Balance(f.tokens, f.tick1, Home(f)))
            && (Claimed(f, holder, height).Ok? ==>
                  var h := Claimed(f, holder, height).value;
                  && h.stakers.Keys == g.stakers.Keys && h.acc == g.acc && h.total == g.total
                  && h.stakers[holder].amt == g.stakers[holder].amt
                  && Due(h, holder) == 0 && h.paid == g.paid + Due(g, holder)
                  && (forall k <- g.stakers :: k != holder ==> h.stakers[k] == g.stakers[k])
                  && Moved(f.tokens, h.tokens, f.tick1, Home(f), holder, Due(g, holder)))
  {
    hide Updated, Sum, Transfer, Balance, Earned, Due, Settled;
    UpdatedValid(f, height);
    UpdateAccrues(f, height);
    var g := Updated(f, height);
    SettledBy(g, holder, height);
    DueIs(g, holder);
    if Claimed(f, holder, height).Ok? {
      DueIs(Claimed(f, holder, height).value, holder);
    }
    TransferIffHas(g.tokens, g.tick1, Home(g), holder, Due(g, holder));
  }

  /** What a client is shown at any height, before the last settlement or after the last block too. `s` is what the blocks
      between emit for each unit staked and `earned` what the stake has then earned, both rounded down: the part beyond the
      debt is shown with what is pending, or alone when it is nothing; and while nothing is staked nothing is shown. */
  lemma QuoteIs(f: Farm, holder: Signer, height: nat, s: int, earned: int)
    requires holder in f.stakers
    requires f.total > 0 ==> && FloorOf(s, SCALE * (f.each * (height - f.lastReward)), f.total)
                             && FloorOf(earned, f.stakers[holder].amt * (f.acc + s), SCALE)
    ensures var k := f.stakers[holder];
            Quote(f, holder, height) ==
            if f.total == 0 then 0 else if earned > k.debt then earned - k.debt + k.pending else earned - k.debt
  {
    if f.total > 0 {
      var blocks := height - f.lastReward;
      assert blocks * f.each * SCALE == SCALE * (f.each * blocks);
      FloorIs(SCALE * (f.each * blocks), f.total);
      FloorUnique(s, Share(f, blocks), SCALE * (f.each * blocks), f.total);
      FloorIs(f.stakers[holder].amt * (f.acc + s), SCALE);
      FloorUnique(earned, f.stakers[holder].amt * (f.acc + s) / SCALE, f.stakers[holder].amt * (f.acc + s), SCALE);
    }
  }

  // ---------------------------------------------------------------------------------------------------------------
  // Every run
  // ---------------------------------------------------------------------------------------------------------------

  /** Somebody is staked while the clock runs up to this operation; a stake on a clock at zero restarts it. */
  predicate Running(f: Farm, o: Op) {
    f.total > 0 && (f.lastReward > 0 || !o.StakeOp?)
  }

  /** The blocks a run accounted for while somebody was staked, read off its states. */
  function StakedBlocks(f: Farm, os: seq<Op>): int
    requires f.each > 0
    decreases |os|
  {
    if os == [] then 0
    else
      DoKeeps(f, os[0]);
      var g := Do(f, os[0]);
      (if Running(f, os[0]) then g.lastReward - f.lastReward else 0) + StakedBlocks(g, os[1..])
  }

  /** What its updates can have rounded away, in units of 1 / SCALE: less than the total stake at each. */
  function RoundedAway(f: Farm, os: seq<Op>): int
    requires f.each > 0
    decreases |os|
  {
    if os == [] then 0
    else
      DoKeeps(f, os[0]);
      var g := Do(f, os[0]);
      (if Running(f, os[0]) && g.lastReward > f.lastReward then f.total else 0) + RoundedAway(g, os[1..])
  }

  /** What is paid, pending and earned is at least the emission over `blocks` blocks, less the roundings. */
  ghost predicate Delivered(f: Farm, blocks: int, lost: int) {
    DeliveredIn(f.paid + Sum(Pendings(f.stakers)), f.total * f.acc, Sum(Debts(f.stakers)), f.each * blocks, f.steps, lost)
  }

  predicate DeliveredIn(booked: int, earned: int, debts: int, emitted: int, steps: int, lost: int) {
    SCALE * booked + earned - SCALE * debts >= SCALE * emitted - (SCALE - 1) * steps - lost
  }

  lemma StartedDelivers(f: Farm, height: nat, blocks: int, lost: int)
    requires f.each > 0 && Delivered(f, blocks, lost)
    ensures Delivered(Started(f, height), blocks, lost)
  {
    hide Sum;
  }

  /** The blocks and the rounding of one update. */
  function Passed(f: Farm, height: nat): int {
    if f.total > 0 && f.lastReward < height <= f.last then height - f.lastReward else 0
  }

  function Lost(f: Farm, height: nat): int {
    if f.total > 0 && f.lastReward < height <= f.last then f.total else 0
  }

  lemma UpdatedDelivers(f: Farm, height: nat, blocks: int, lost: int)
    requires Delivered(f, blocks, lost)
    ensures Delivered(Updated(f, height), blocks + Passed(f, height), lost + Lost(f, height))
  {
    hide Sum, Updated;
    UpdateAccrues(f, height);
    var g := Updated(f, height);
    if f.lastReward < height <= f.last {
      if f.total > 0 {
        assert f.total * g.acc == f.total * f.acc + (g.acc - f.acc) * f.total;
        assert f.each * (blocks + (height - f.lastReward)) == f.each * blocks + f.each * (height - f.lastReward);
        assert (g.acc - f.acc + 1) * f.total == (g.acc - f.acc) * f.total + f.total;
      } else {
        assert f.total * g.acc == f.total * f.acc;
      }
    }
  }

  /** What re-computing one debt can lose the stakers. */
  lemma DebtLoses(total: int, acc: nat, a: nat, b: nat)
    ensures (total - a + b) * acc - SCALE * Earned(b, acc) >= total * acc - SCALE * Earned(a, acc) - (SCALE - 1)
    ensures a == b ==> (total - a + b) * acc - SCALE * Earned(b, acc) == total * acc - SCALE * Earned(a, acc)
  {
    MulFloor(a * acc, SCALE);
    MulFloor(b * acc, SCALE);
    assert (total - a + b) * acc == total * acc - a * acc + b * acc;
  }

  lemma SettleDelivers(f: Farm, holder: Signer, height: nat, s: Staker, total: nat, paid: nat, steps: nat, blocks: int, lost: int)
    requires Delivered(f, blocks, lost) && s.debt == Earned(s.amt, f.acc)
    requires total == f.total - StakerOf(f, holder, height).amt + s.amt
    requires paid + s.pending - f.paid ==
             StakerOf(f, holder, height).pending + Earned(StakerOf(f, holder, height).amt, f.acc)
               - StakerOf(f, holder, height).debt
    requires steps == f.steps + 1 || (steps == f.steps && s.amt == StakerOf(f, holder, height).amt)
    ensures Delivered(f.(stakers := f.stakers[holder := s], total := total, paid := paid, steps := steps), blocks, lost)
  {
    hide Sum, Earned;
    var was := StakerOf(f, holder, height);
    RowPut(f.stakers, holder, s);
    DebtLoses(f.total, f.acc, was.amt, s.amt);
  }

  lemma StakeDelivers(f: Farm, holder: Signer, amt: int, height: nat, blocks: int, lost: int)
    requires Valid(f) && Staked(f, holder, amt, height).Ok? && Delivered(f, blocks, lost)
    ensures var s := Started(f, height);
            Delivered(Staked(f, holder, amt, height).value, blocks + Passed(s, height), lost + Lost(s, height))
  {
    hide Sum, Earned, Updated, Started, Settled, Delivered, Passed, Lost;
    var s0 := Started(f, height);
    var b, l := blocks + Passed(s0, height), lost + Lost(s0, height);
    StartedDelivers(f, height, blocks, lost);
    UpdatedDelivers(s0, height, blocks, lost);
    StartedValid(f, height);
    UpdatedValid(s0, height);
    var g := Updated(s0, height);
    var s := StakerOf(g, holder, height);
    SettledBy(g, holder, height);
    var t := Settled(s, g.acc).(amt := s.amt + amt, debt := Earned(s.amt + amt, g.acc));
    SettleDelivers(g, holder, height, t, g.total + amt, g.paid, g.steps + 1, b, l);
    TokensAside(g.(stakers := g.stakers[holder := t], total := g.total + amt, steps := g.steps + 1),
                Staked(f, holder, amt, height).value, b, l);
  }

  lemma TokensAside(f: Farm, g: Farm, blocks: int, lost: int)
    requires Delivered(f, blocks, lost) && g == f.(tokens := g.tokens)
    ensures Delivered(g, blocks, lost)
  {}

  lemma UnstakeDelivers(f: Farm, holder: Signer, amt: int, height: nat, blocks: int, lost: int)
    requires Valid(f) && Unstaked(f, holder, amt, height).Ok? && Delivered(f, blocks, lost)
    ensures Delivered(Unstaked(f, holder, amt, height).value, blocks + Passed(f, height), lost + Lost(f, height))
  {
    hide Sum, Earned, Settled, Updated, Delivered, Passed, Lost;
    var b, l := blocks + Passed(f, height), lost + Lost(f, height);
    UpdatedDelivers(f, height, blocks, lost);
    UpdatedValid(f, height);
    UpdateAccrues(f, height);
    var g := Updated(f, height);
    var s := g.stakers[holder];
    SettledBy(g, holder, height);
    var t := Settled(s, g.acc).(amt := s.amt - amt, debt := Earned(s.amt - amt, g.acc));
    SettleDelivers(g, holder, height, t, g.total - amt, g.paid, g.steps + 1, b, l);
    TokensAside(g.(stakers := g.stakers[holder := t], total := g.total - amt, steps := g.steps + 1),
                Unstaked(f, holder, amt, height).value, b, l);
  }

  lemma ClaimDelivers(f: Farm, holder: Signer, height: nat, blocks: int, lost: int)
    requires Valid(f) && Claimed(f, holder, height).Ok? && Delivered(f, blocks, lost)
    ensures Delivered(Claimed(f, holder, height).value, blocks + Passed(f, height), lost + Lost(f, height))
  {
    hide Sum, Earned, Settled, Updated, Delivered, Passed, Lost;
    var b, l := blocks + Passed(f, height), lost + Lost(f, height);
    UpdatedDelivers(f, height, blocks, lost);
    UpdatedValid(f, height);
    UpdateAccrues(f, height);
    var g := Updated(f, height);
    var s := g.stakers[holder];
    SettledBy(g, holder, height);
    var t := s.(pending := 0, debt := Earned(s.amt, g.acc));
    SettleDelivers(g, holder, height, t, g.total, g.paid + Settled(s, g.acc).pending, g.steps, b, l);
    TokensAside(g.(stakers := g.stakers[holder := t], paid := g.paid + Settled(s, g.acc).pending),
                Claimed(f, holder, height).value, b, l);
  }

  lemma DoDelivers(f: Farm, o: Op, blocks: int, lost: int)
    requires Valid(f) && Delivered(f, blocks, lost)
    ensures f.each > 0
    ensures var g := Do(f, o);
            Delivered(g, blocks + (if Running(f, o) then g.lastReward - f.lastReward else 0),
                      lost + (if Running(f, o) && g.lastReward > f.lastReward then f.total else 0))
  {
    hide Valid, Delivered, Settled, Earned, Transfer, Sum;
    PositiveEach(f);
    match o
    case StakeOp(holder, amt, height) =>
      if Staked(f, holder, amt, height).Ok? {
        StakeDelivers(f, holder, amt, height, blocks, lost);
        UpdateAccrues(Started(f, height), height);
      }
    case UnstakeOp(holder, amt, height) =>
      if Unstaked(f, holder, amt, height).Ok? {
        UnstakeDelivers(f, holder, amt, height, blocks, lost);
        UpdateAccrues(f, height);
      }
    case ClaimOp(holder, height) =>
      if Claimed(f, holder, height).Ok? {
        ClaimDelivers(f, holder, height, blocks, lost);
        UpdateAccrues(f, height);
      }
    case Others(ts) => TokensAside(f, Do(f, o), blocks, lost);
  }

  lemma {:induction false} DoAllDelivers(f: Farm, os: seq<Op>, blocks: int, lost: int)
    requires Valid(f) && Funded(f) && AllAllowed(f, os) && Delivered(f, blocks, lost)
    ensures f.each > 0 && Delivered(DoAll(f, os), blocks + StakedBlocks(f, os), lost + RoundedAway(f, os))
    decreases |os|
  {
    hide Do, Valid, Funded, Allowed, Delivered, Running;
    PositiveEach(f);
    if os != [] {
      var g := Do(f, os[0]);
      DoKeeps(f, os[0]);
      DoValid(f, os[0]);
      DoDelivers(f, os[0], blocks, lost);
      DoAllDelivers(g, os[1..], blocks + (if Running(f, os[0]) then g.lastReward - f.lastReward else 0),
                    lost + (if Running(f, os[0]) && g.lastReward > f.lastReward then f.total else 0));
    }
  }

  /** Flooring staker by staker loses less than one unit of each. */
  lemma {:induction false} EarningsAbove(m: map<Signer, Staker>, acc: nat)
    ensures SCALE * Sum(Earnings(m, acc)) >= Sum(Amts(m)) * acc - (SCALE - 1) * |m|
    decreases |m|
  {
    if m == map[] {
      assert Earnings(m, acc) == map[] && Amts(m) == map[];
    } else {
      var k :| k in m;
      EarningsAbove(m - {k}, acc);
      assert Earnings(m, acc) - {k} == Earnings(m - {k}, acc);
      assert Amts(m) - {k} == Amts(m - {k});
      assert |m - {k}| == |m| - 1 by { assert (m - {k}).Keys == m.Keys - {k}; }
      hide Sum, Earned;
      SumSplit(Earnings(m, acc), k);
      SumSplit(Amts(m), k);
      FloorsAdd(m[k].amt, acc, Sum(Earnings(m - {k}, acc)), Sum(Amts(m - {k})), |m| - 1);
    }
  }

  lemma FloorsAdd(amt: nat, acc: nat, earned: nat, amts: nat, n: nat)
    requires SCALE * earned >= amts * acc - (SCALE - 1) * n
    ensures SCALE * (Earned(amt, acc) + earned) >= (amt + amts) * acc - (SCALE - 1) * (n + 1)
  {
    MulFloor(amt * acc, SCALE);
    assert (amt + amts) * acc == amt * acc + amts * acc;
  }

  /** The rewards reach the stakers, over every run of every farm: what was paid and what the stakers could claim is,
      together, at least what the blocks emitted while somebody was staked, less one unit for each stake and unstake,
      one for each staker, and the 1 / SCALE roundings of the updates. */
  lemma RewardDelivered(tokens: Tokens, id: string, holder: Signer, tick0: Tick, tick1: Tick, reward: int, each: int,
                        os: seq<Op>)
    requires Create(tokens, id, holder, tick0, tick1, reward, each).Ok?
    requires AllAllowed(Create(tokens, id, holder, tick0, tick1, reward, each).value, os)
    ensures var f0 := Create(tokens, id, holder, tick0, tick1, reward, each).value;
            var f := DoAll(f0, os);
            SCALE * (f.paid + Owing(f)) >=
              SCALE * (each * StakedBlocks(f0, os)) - (SCALE - 1) * (f.steps + |f.stakers|) - RoundedAway(f0, os)
  {
    hide Create, Valid, Sum, Earnings, Funded, AllAllowed, DoAll, StakedBlocks, RoundedAway;
    CreateValid(tokens, id, holder, tick0, tick1, reward, each);
    FreshDelivers(tokens, id, holder, tick0, tick1, reward, each);
    var f0 := Create(tokens, id, holder, tick0, tick1, reward, each).value;
    PositiveEach(f0);
    DoAllValid(f0, os);
    DoAllDelivers(f0, os, 0, 0);
    var f := DoAll(f0, os);
    TotalIs(f);
    EarningsAbove(f.stakers, f.acc);
  }

  lemma TotalIs(f: Farm)
    requires Valid(f)
    ensures f.total == Sum(Amts(f.stakers))
  {}

  lemma FreshDelivers(tokens: Tokens, id: string, holder: Signer, tick0: Tick, tick1: Tick, reward: int, each: int)
    requires Create(tokens, id, holder, tick0, tick1, reward, each).Ok?
    ensures Delivered(Create(tokens, id, holder, tick0, tick1, reward, each).value, 0, 0)
  {
    var none: map<Signer, nat> := map[];
    assert Debts(map[]) == none && Pendings(map[]) == none;
    assert Sum(none) == 0;
  }
}
