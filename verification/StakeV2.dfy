/** StakeV2: a reward-per-share accumulator scaled by 1e8, with reward debt, pending reward and a last block. */
module Farms {
  import opened Results
  import opened Names
  import opened Ledger

  const SCALE: nat := 100000000

  /** A row of `stake_v2_collect_address`; `unlock` is its `last_block`. */
  datatype Staker = Staker(amt: nat, debt: nat, pending: nat, unlock: nat)

  /** A row of `stake_v2_collect` with its stakers and the drc-20 ledger they share; `each` is positive by
      `verifyStakeV2Create`. `paid`, `steps` and `first` are history: the rewards paid, the stake and unstake
      operations done, and the height of the first stake. */
  datatype Farm = Farm(
    id: string, tick0: Tick, tick1: Tick, reward: nat, each: nat,
    total: nat, acc: nat, lastReward: nat, last: nat,
    stakers: map<Signer, Staker>,
    tokens: Tokens,
    paid: nat, steps: nat, first: nat)

  function Home(f: Farm): Party {
    FarmReserves(f.id)
  }

  /** `StakeV2Create` behind `verifyStakeV2Create`. */
  function Create(tokens: Tokens, id: string, holder: Signer, tick0: Tick, tick1: Tick, reward: int, each: int)
    : Result<Farm>
  {
    if each < 1 || reward < each then Failed
    else
      var ts :- Transfer(tokens, tick1, holder, FarmReserves(id), reward);
      Ok(Farm(id, tick0, tick1, reward, each, 0, 0, 0, 0, map[], ts, 0, 0, 0))
  }

  /** The first stake starts the clock. */
  function Started(f: Farm, height: nat): Farm
    requires f.each > 0
  {
    if f.lastReward == 0 then f.(lastReward := height, last := f.reward / f.each + height, first := height) else f
  }

  /** What `blocks` blocks add to the reward per share. */
  function Share(f: Farm, blocks: int): int
    requires f.total > 0
  {
    blocks * f.each * SCALE / f.total
  }

  /** `StakeV2UpdatePool`. */
  function Updated(f: Farm, height: nat): (r: Farm) {
    if f.lastReward >= height || f.last < height then f
    else if f.total == 0 then f.(lastReward := height)
    else
      ShareNonNegative(f, height - f.lastReward);
      f.(acc := f.acc + Share(f, height - f.lastReward), lastReward := height)
  }

  lemma ShareNonNegative(f: Farm, blocks: nat)
    requires f.total > 0
    ensures Share(f, blocks) >= 0
  {
    assert blocks * f.each * SCALE >= 0;
  }

  /** What an amount has earned since the accumulator was zero, floored. */
  function Earned(amt: nat, acc: nat): nat {
    amt * acc / SCALE
  }

  /** Move what accrued since the last settlement into the pending reward. */
  function Settled(s: Staker, acc: nat): Staker {
    var newly := Earned(s.amt, acc) - s.debt;
    if newly > 0 then s.(pending := s.pending + newly) else s
  }

  function StakerOf(f: Farm, holder: Signer, height: nat): Staker {
    if holder in f.stakers then f.stakers[holder] else Staker(0, 0, 0, height + f.last)
  }

  /** `StakeV2Stake`. A staker with nothing at stake is not settled first. */
  function Staked(f: Farm, holder: Signer, amt: int, height: nat): Result<Farm>
    requires f.each > 0
  {
    var g := Updated(Started(f, height), height);
    var ts :- Transfer(g.tokens, g.tick0, holder, Home(g), amt);
    var s := StakerOf(g, holder, height);
    var settled := if s.amt > 0 then Settled(s, g.acc) else s;
    Ok(g.(tokens := ts,
          total := g.total + amt,
          steps := g.steps + 1,
          stakers := g.stakers[holder := settled.(amt := s.amt + amt, debt := Earned(s.amt + amt, g.acc))]))
  }

  /** `verifyStakeV2UnStake` and `StakeV2UnStake`; a total smaller than the amount, which the invariant excludes, is
      counted as failure. */
  function Unstaked(f: Farm, holder: Signer, amt: int, height: nat): Result<Farm> {
    if amt < 1 || holder !in f.stakers || f.stakers[holder].unlock > height || amt > f.stakers[holder].amt
       || amt > f.total then Failed
    else
      var g := Updated(f, height);
      var s := g.stakers[holder];
      var ts :- Transfer(g.tokens, g.tick0, Home(g), holder, amt);
      Ok(g.(tokens := ts,
            total := g.total - amt,
            steps := g.steps + 1,
            stakers := g.stakers[holder := Settled(s, g.acc).(amt := s.amt - amt, debt := Earned(s.amt - amt, g.acc))]))
  }

  /** `StakeV2GetReward`. */
  function Claimed(f: Farm, holder: Signer, height: nat): Result<Farm> {
    if holder !in f.stakers then Failed
    else
      var g := Updated(f, height);
      var s := g.stakers[holder];
      var due := Settled(s, g.acc).pending;
      if due <= 0 then Failed
      else
        var ts :- Transfer(g.tokens, g.tick1, Home(g), holder, due);
        Ok(g.(tokens := ts,
              paid := g.paid + due,
              stakers := g.stakers[holder := s.(pending := 0, debt := Earned(s.amt, g.acc))]))
  }

  /** `StakeGetRewardV2`: the reward a client is shown. */
  function Quote(f: Farm, holder: Signer, height: nat): int
    requires holder in f.stakers
  {
    if f.total <= 0 then 0
    else
      var s := f.stakers[holder];
      var acc := f.acc + Share(f, height - f.lastReward);
      var newly := s.amt * acc / SCALE - s.debt;
      if newly > 0 then newly + s.pending else newly
  }

  // ---------------------------------------------------------------------------------------------------------------
  // Sums over stakers
  // ---------------------------------------------------------------------------------------------------------------

  ghost function Sum(m: map<Signer, nat>): nat
    decreases |m|
  {
    if m == map[] then 0
    else
      var k :| k in m;
      m[k] + Sum(m - {k})
  }

  lemma {:induction false} SumSplit(m: map<Signer, nat>, k: Signer)
    requires k in m
    ensures Sum(m) == m[k] + Sum(m - {k})
    decreases |m|
  {
    var k0 :| k0 in m && Sum(m) == m[k0] + Sum(m - {k0});
    if k0 != k {
      SumSplit(m - {k0}, k);
      SumSplit(m - {k}, k0);
      assert m - {k0} - {k} == m - {k} - {k0};
    }
  }

  lemma SumPut(m: map<Signer, nat>, k: Signer, v: nat)
    ensures Sum(m[k := v]) == Sum(m) - (if k in m then m[k] else 0) + v
  {
    SumSplit(m[k := v], k);
    if k in m {
      SumSplit(m, k);
      assert m[k := v] - {k} == m - {k};
    } else {
      assert m[k := v] - {k} == m;
    }
  }

  function Amts(m: map<Signer, Staker>): map<Signer, nat> {
    map k <- m :: m[k].amt
  }

  function Debts(m: map<Signer, Staker>): map<Signer, nat> {
    map k <- m :: m[k].debt
  }

  function Pendings(m: map<Signer, Staker>): map<Signer, nat> {
    map k <- m :: m[k].pending
  }

  /** What each staker has earned since the accumulator was zero, booked or not. */
  function Earnings(m: map<Signer, Staker>, acc: nat): map<Signer, nat> {
    map k <- m :: Earned(m[k].amt, acc)
  }

  /** Replacing one staker's row. */
  lemma RowPut(m: map<Signer, Staker>, k: Signer, s: Staker)
    ensures Sum(Amts(m[k := s])) == Sum(Amts(m)) - (if k in m then m[k].amt else 0) + s.amt
    ensures Sum(Debts(m[k := s])) == Sum(Debts(m)) - (if k in m then m[k].debt else 0) + s.debt
    ensures Sum(Pendings(m[k := s])) == Sum(Pendings(m)) - (if k in m then m[k].pending else 0) + s.pending
  {
    hide Sum;
    SumPut(Amts(m), k, s.amt);
    SumPut(Debts(m), k, s.debt);
    SumPut(Pendings(m), k, s.pending);
    assert Amts(m)[k := s.amt] == Amts(m[k := s]);
    assert Debts(m)[k := s.debt] == Debts(m[k := s]);
    assert Pendings(m)[k := s.pending] == Pendings(m[k := s]);
  }

  lemma MulFloor(a: int, d: int)
    requires d > 0
    ensures a / d * d <= a < a / d * d + d
  {}

  lemma AddFloors(amt: nat, acc: nat, earned: nat, amts: nat)
    requires SCALE * earned <= amts * acc
    ensures SCALE * (Earned(amt, acc) + earned) <= (amt + amts) * acc
  {
    MulFloor(amt * acc, SCALE);
    assert (amt + amts) * acc == amt * acc + amts * acc;
  }

  /** Flooring staker by staker never gives more than flooring once. */
  lemma {:induction false} EarningsBelow(m: map<Signer, Staker>, acc: nat)
    ensures SCALE * Sum(Earnings(m, acc)) <= Sum(Amts(m)) * acc
    decreases |m|
  {
    if m == map[] {
      assert Earnings(m, acc) == map[] && Amts(m) == map[];
    } else {
      var k :| k in m;
      EarningsBelow(m - {k}, acc);
      assert Earnings(m, acc) - {k} == Earnings(m - {k}, acc);
      assert Amts(m) - {k} == Amts(m - {k});
      hide Sum, Earned;
      SumSplit(Earnings(m, acc), k);
      SumSplit(Amts(m), k);
      AddFloors(m[k].amt, acc, Sum(Earnings(m - {k}, acc)), Sum(Amts(m - {k})));
    }
  }

  // ---------------------------------------------------------------------------------------------------------------
  // The invariant
  // ---------------------------------------------------------------------------------------------------------------

  /** Debts never run ahead of earnings, so nothing a staker is due is ever negative. */
  ghost predicate DebtsCovered(f: Farm) {
    forall k <- f.stakers :: f.stakers[k].debt <= Earned(f.stakers[k].amt, f.acc)
  }

  /** The accounting identity behind the reward bound, in units of 1 / SCALE: everything paid, pending, and earned but
      not booked is at most what the blocks emitted, plus what each rounding of a debt can have lost. */
  ghost predicate Accounted(f: Farm) {
    Within(f.paid + Sum(Pendings(f.stakers)), f.total * f.acc, Sum(Debts(f.stakers)), Emitted(f), f.steps)
  }

  predicate Within(booked: int, earned: int, debts: int, emitted: int, steps: int) {
    SCALE * booked + earned - SCALE * debts <= SCALE * emitted + (SCALE - 1) * steps
  }

  /** The emission since the first stake. */
  function Emitted(f: Farm): int {
    f.each * (f.lastReward - f.first)
  }

  ghost predicate Clock(f: Farm) {
    && f.each > 0
    && f.first <= f.lastReward
    && (f.lastReward == 0 ==> f.acc == 0 && f.first == 0 && (f.last == 0 || f.last == f.reward / f.each))
    && (f.lastReward > 0 ==> f.last == f.reward / f.each + f.first && f.lastReward <= f.last)
  }

  ghost predicate Valid(f: Farm) {
    && Clock(f)
    && f.total == Sum(Amts(f.stakers))
    && DebtsCovered(f)
    && Accounted(f)
  }

  lemma EarnedGrows(amt: nat, acc: nat, acc2: nat)
    requires acc <= acc2
    ensures Earned(amt, acc) <= Earned(amt, acc2)
  {
    assert amt * acc <= amt * acc2;
    MulFloor(amt * acc, SCALE);
    MulFloor(amt * acc2, SCALE);
  }

  lemma StartedValid(f: Farm, height: nat)
    requires Valid(f)
    ensures Valid(Started(f, height))
  {
    hide Sum;
    if f.lastReward == 0 {
      var g := Started(f, height);
      assert Emitted(f) == 0 && Emitted(g) == 0;
    }
  }

  /** What the blocks add to the earnings is no more than what they emit. */
  lemma ShareBelow(f: Farm, blocks: nat)
    requires f.total > 0
    ensures Share(f, blocks) >= 0
    ensures f.total * (f.acc + Share(f, blocks)) <= f.total * f.acc + SCALE * (f.each * blocks)
  {
    ShareNonNegative(f, blocks);
    var b := blocks * f.each * SCALE;
    MulFloor(b, f.total);
    assert f.total * (f.acc + Share(f, blocks)) == f.total * f.acc + b / f.total * f.total;
    assert b == SCALE * (f.each * blocks);
  }

  lemma EmittedMore(f: Farm, height: nat)
    requires f.lastReward <= height
    ensures Emitted(f.(lastReward := height)) == Emitted(f) + f.each * (height - f.lastReward)
    ensures f.each * (height - f.lastReward) >= 0
  {}

  lemma UpdatedValid(f: Farm, height: nat)
    requires Valid(f)
    ensures Valid(Updated(f, height))
    ensures Updated(f, height).acc >= f.acc
  {
    hide Sum, Earned, Share, Emitted;
    var g := Updated(f, height);
    if !(f.lastReward >= height || f.last < height) {
      EmittedMore(f, height);
      assert Emitted(g) == Emitted(f.(lastReward := height)) by { EmittedSame(g, f.(lastReward := height)); }
      if f.total > 0 {
        ShareBelow(f, height - f.lastReward);
        forall k | k in f.stakers
          ensures f.stakers[k].debt <= Earned(f.stakers[k].amt, g.acc)
        {
          EarnedGrows(f.stakers[k].amt, f.acc, g.acc);
        }
      } else {
        assert f.total * g.acc == f.total * f.acc;
      }
    }
  }

  lemma EmittedSame(f: Farm, g: Farm)
    requires f.each == g.each && f.lastReward == g.lastReward && f.first == g.first
    ensures Emitted(f) == Emitted(g)
  {}

  /** What re-computing one debt, for an amount changed from `a` to `b`, can lose. */
  lemma DebtRounds(total: int, acc: nat, a: nat, b: nat)
    ensures (total - a + b) * acc - SCALE * Earned(b, acc) <= total * acc - SCALE * Earned(a, acc) + (SCALE - 1)
    ensures a == b ==> (total - a + b) * acc - SCALE * Earned(b, acc) == total * acc - SCALE * Earned(a, acc)
  {
    MulFloor(a * acc, SCALE);
    MulFloor(b * acc, SCALE);
    assert (total - a + b) * acc == total * acc - a * acc + b * acc;
  }

  /** Setting a staker's row, with everything it was due moved to `pending` or `paid`: what the rounding can cost. */
  lemma SettleValid(f: Farm, holder: Signer, height: nat, s: Staker, total: nat, paid: nat, steps: nat)
    requires Valid(f) && s.debt == Earned(s.amt, f.acc)
    requires total == f.total - StakerOf(f, holder, height).amt + s.amt
    requires paid + s.pending - f.paid ==
             StakerOf(f, holder, height).pending + Earned(StakerOf(f, holder, height).amt, f.acc)
               - StakerOf(f, holder, height).debt
    requires steps == f.steps + 1 || (steps == f.steps && s.amt == StakerOf(f, holder, height).amt)
    ensures Valid(f.(stakers := f.stakers[holder := s], total := total, paid := paid, steps := steps))
  {
    hide Sum, Earned;
    var was := StakerOf(f, holder, height);
    RowPut(f.stakers, holder, s);
    DebtRounds(f.total, f.acc, was.amt, s.amt);
    var g := f.(stakers := f.stakers[holder := s], total := total, paid := paid, steps := steps);
    assert Emitted(g) == Emitted(f);
    assert Accounted(g);
  }

  /** Settling books exactly what accrued; a staker with nothing at stake accrued nothing. */
  lemma SettledBy(f: Farm, holder: Signer, height: nat)
    requires DebtsCovered(f)
    ensures var s := StakerOf(f, holder, height);
            && Settled(s, f.acc) == s.(pending := s.pending + (Earned(s.amt, f.acc) - s.debt))
            && (s.amt == 0 ==> Settled(s, f.acc) == s)
  {}

  lemma TokensDoNotMatter(f: Farm, ts: Tokens)
    requires Valid(f)
    ensures Valid(f.(tokens := ts))
  {}

  lemma StakeValid(f: Farm, holder: Signer, amt: int, height: nat)
    requires Valid(f) && Staked(f, holder, amt, height).Ok?
    ensures Valid(Staked(f, holder, amt, height).value)
  {
    hide Sum, Earned, Updated, Started, Settled;
    StartedValid(f, height);
    UpdatedValid(Started(f, height), height);
    var g := Updated(Started(f, height), height);
    var s := StakerOf(g, holder, height);
    SettledBy(g, holder, height);
    var t := Settled(s, g.acc).(amt := s.amt + amt, debt := Earned(s.amt + amt, g.acc));
    SettleValid(g, holder, height, t, g.total + amt, g.paid, g.steps + 1);
    TokensDoNotMatter(g.(stakers := g.stakers[holder := t], total := g.total + amt, steps := g.steps + 1),
                      Staked(f, holder, amt, height).value.tokens);
  }

  lemma UnstakeValid(f: Farm, holder: Signer, amt: int, height: nat)
    requires Valid(f) && Unstaked(f, holder, amt, height).Ok?
    ensures Valid(Unstaked(f, holder, amt, height).value)
  {
    hide Sum, Earned, Settled;
    UpdatedValid(f, height);
    var g := Updated(f, height);
    var s := g.stakers[holder];
    SettledBy(g, holder, height);
    var t := Settled(s, g.acc).(amt := s.amt - amt, debt := Earned(s.amt - amt, g.acc));
    SettleValid(g, holder, height, t, g.total - amt, g.paid, g.steps + 1);
    TokensDoNotMatter(g.(stakers := g.stakers[holder := t], total := g.total - amt, steps := g.steps + 1),
                      Unstaked(f, holder, amt, height).value.tokens);
  }

  lemma ClaimValid(f: Farm, holder: Signer, height: nat)
    requires Valid(f) && Claimed(f, holder, height).Ok?
    ensures Valid(Claimed(f, holder, height).value)
  {
    hide Sum, Earned, Settled;
    UpdatedValid(f, height);
    var g := Updated(f, height);
    var s := g.stakers[holder];
    SettledBy(g, holder, height);
    var t := s.(pending := 0, debt := Earned(s.amt, g.acc));
    SettleValid(g, holder, height, t, g.total, g.paid + Settled(s, g.acc).pending, g.steps);
    TokensDoNotMatter(g.(stakers := g.stakers[holder := t], paid := g.paid + Settled(s, g.acc).pending),
                      Claimed(f, holder, height).value.tokens);
  }

  // ---------------------------------------------------------------------------------------------------------------
  // Every run
  // ---------------------------------------------------------------------------------------------------------------

  /** `Others` is whatever the rest of the indexer does to the ledger meanwhile: nothing but these operations takes
      anything from the farm's address. */
  datatype Op =
    | StakeOp(holder: Signer, amt: int, height: nat)
    | UnstakeOp(holder: Signer, amt: int, height: nat)
    | ClaimOp(holder: Signer, height: nat)
    | Others(tokens: Tokens)

  ghost predicate Allowed(f: Farm, o: Op) {
    o.Others? ==>
      && Balance(o.tokens, f.tick0, Home(f)) >= Balance(f.tokens, f.tick0, Home(f))
      && Balance(o.tokens, f.tick1, Home(f)) >= Balance(f.tokens, f.tick1, Home(f))
  }

  /** An operation that fails leaves everything as it was. */
  function Do(f: Farm, o: Op): Farm
    requires f.each > 0
  {
    match o
    case StakeOp(holder, amt, height) =>
      var r := Staked(f, holder, amt, height); if r.Ok? then r.value else f
    case UnstakeOp(holder, amt, height) =>
      var r := Unstaked(f, holder, amt, height); if r.Ok? then r.value else f
    case ClaimOp(holder, height) =>
      var r := Claimed(f, holder, height); if r.Ok? then r.value else f
    case Others(ts) => f.(tokens := ts)
  }

  lemma DoKeeps(f: Farm, o: Op)
    requires f.each > 0
    ensures var g := Do(f, o);
            g.each == f.each && g.reward == f.reward && g.id == f.id && g.tick0 == f.tick0 && g.tick1 == f.tick1
  {}

  function DoAll(f: Farm, os: seq<Op>): (g: Farm)
    requires f.each > 0
    ensures g.each == f.each
    decreases |os|
  {
    if os == [] then f
    else
      DoKeeps(f, os[0]);
      DoAll(Do(f, os[0]), os[1..])
  }

  ghost predicate AllAllowed(f: Farm, os: seq<Op>)
    requires f.each > 0
    decreases |os|
  {
    os == [] || (DoKeeps(f, os[0]); Allowed(f, os[0]) && AllAllowed(Do(f, os[0]), os[1..]))
  }

  /** What the address holds beyond the principal and the reward not yet paid. The two are one balance when the staked
      and the rewarded token are the same. */
  ghost predicate Funded(f: Farm) {
    if f.tick0 == f.tick1 then
      Balance(f.tokens, f.tick0, Home(f)) >= f.total + f.reward - f.paid
    else
      && Balance(f.tokens, f.tick0, Home(f)) >= f.total
      && Balance(f.tokens, f.tick1, Home(f)) >= f.reward - f.paid
  }

  lemma StakeFunded(f: Farm, holder: Signer, amt: int, height: nat)
    requires f.each > 0 && Funded(f) && Staked(f, holder, amt, height).Ok?
    ensures Funded(Staked(f, holder, amt, height).value)
  {}

  lemma UnstakeFunded(f: Farm, holder: Signer, amt: int, height: nat)
    requires Funded(f) && Unstaked(f, holder, amt, height).Ok?
    ensures Funded(Unstaked(f, holder, amt, height).value)
  {}

  lemma ClaimFunded(f: Farm, holder: Signer, height: nat)
    requires Funded(f) && Claimed(f, holder, height).Ok?
    ensures Funded(Claimed(f, holder, height).value)
  {}

  lemma DoValid(f: Farm, o: Op)
    requires Valid(f) && Funded(f) && Allowed(f, o)
    ensures Valid(Do(f, o)) && Funded(Do(f, o))
  {
    hide Staked, Unstaked, Claimed, Valid;
    assert f.each > 0 by { PositiveEach(f); }
    match o
    case StakeOp(holder, amt, height) =>
      if Staked(f, holder, amt, height).Ok? {
        StakeValid(f, holder, amt, height);
        StakeFunded(f, holder, amt, height);
      }
    case UnstakeOp(holder, amt, height) =>
      if Unstaked(f, holder, amt, height).Ok? {
        UnstakeValid(f, holder, amt, height);
        UnstakeFunded(f, holder, amt, height);
      }
    case ClaimOp(holder, height) =>
      if Claimed(f, holder, height).Ok? {
        ClaimValid(f, holder, height);
        ClaimFunded(f, holder, height);
      }
    case Others(ts) => TokensDoNotMatter(f, ts);
  }

  lemma PositiveEach(f: Farm)
    requires Valid(f)
    ensures f.each > 0
  {}

  lemma {:induction false} DoAllValid(f: Farm, os: seq<Op>)
    requires Valid(f) && Funded(f) && AllAllowed(f, os)
    ensures Valid(DoAll(f, os)) && Funded(DoAll(f, os)) && DoAll(f, os).reward == f.reward
    decreases |os|
  {
    hide Do, Valid, Funded, Allowed;
    assert f.each > 0 by { PositiveEach(f); }
    if os != [] {
      DoKeeps(f, os[0]);
      DoValid(f, os[0]);
      DoAllValid(Do(f, os[0]), os[1..]);
    }
  }

  lemma CreateValid(tokens: Tokens, id: string, holder: Signer, tick0: Tick, tick1: Tick, reward: int, each: int)
    requires Create(tokens, id, holder, tick0, tick1, reward, each).Ok?
    ensures var f := Create(tokens, id, holder, tick0, tick1, reward, each).value;
            f.reward == reward && f.each == each && Valid(f) && Funded(f)
  {
    var none: map<Signer, nat> := map[];
    assert Amts(map[]) == none && Debts(map[]) == none && Pendings(map[]) == none;
    assert Sum(none) == 0;
  }

  /** What every staker could claim at the current accumulator, booked or not. */
  ghost function Owing(f: Farm): int {
    Sum(Pendings(f.stakers)) + Sum(Earnings(f.stakers, f.acc)) - Sum(Debts(f.stakers))
  }

  lemma EmittedBelow(f: Farm)
    requires Clock(f)
    ensures Emitted(f) <= f.reward
  {
    var blocks, d := f.reward / f.each, f.lastReward - f.first;
    MulFloor(f.reward, f.each);
    if f.lastReward > 0 {
      assert d <= blocks;
      assert f.each * d <= f.each * blocks == blocks * f.each;
    } else {
      assert f.each * d == 0;
    }
  }

  lemma ValidBound(f: Farm)
    requires Valid(f)
    ensures f.paid + Owing(f) <= f.each * (f.lastReward - f.first) + f.steps
    ensures f.each * (f.lastReward - f.first) <= f.reward
  {
    hide Sum, Earned, Earnings, Amts, Debts, Pendings, DebtsCovered, Clock;
    EarningsBelow(f.stakers, f.acc);
    EmittedBelow(f);
    Unscaled(f.paid + Sum(Pendings(f.stakers)), Sum(Earnings(f.stakers, f.acc)), f.total * f.acc,
             Sum(Debts(f.stakers)), Emitted(f), f.steps);
  }

  lemma Unscaled(booked: int, owed: int, earned: int, debts: int, emitted: int, steps: nat)
    requires Within(booked, earned, debts, emitted, steps) && SCALE * owed <= earned
    ensures booked + owed - debts <= emitted + steps
  {}

  /** The reward bound, over every run of every farm: what was paid, is pending, and has accrued unbooked, over all
      stakers together, is at most what the blocks since the first stake emitted plus one unit for each stake and
      unstake; and the emission is at most the reward the creator put in. */
  lemma RewardBound(tokens: Tokens, id: string, holder: Signer, tick0: Tick, tick1: Tick, reward: int, each: int,
                    os: seq<Op>)
    requires Create(tokens, id, holder, tick0, tick1, reward, each).Ok?
    requires AllAllowed(Create(tokens, id, holder, tick0, tick1, reward, each).value, os)
    ensures var f := DoAll(Create(tokens, id, holder, tick0, tick1, reward, each).value, os);
            && f.paid + Owing(f) <= each * (f.lastReward - f.first) + f.steps
            && each * (f.lastReward - f.first) <= reward
  {
    hide Create, Valid, Owing;
    CreateValid(tokens, id, holder, tick0, tick1, reward, each);
    var f0 := Create(tokens, id, holder, tick0, tick1, reward, each).value;
    PositiveEach(f0);
    DoAllValid(f0, os);
    ValidBound(DoAll(f0, os));
  }

  // ---------------------------------------------------------------------------------------------------------------
  // The quote
  // ---------------------------------------------------------------------------------------------------------------

  /** What accrues to a staker by `height`, beyond what is pending. */
  function Newly(f: Farm, holder: Signer, height: nat): int
    requires holder in f.stakers
  {
    Earned(f.stakers[holder].amt, Updated(f, height).acc) - f.stakers[holder].debt
  }

  /** Between the last settlement and the last block, in any state a run reaches, the quote is what a claim at that
      height would pay if and only if something newly accrued or nothing was pending: otherwise the quote drops the
      pending. */
  lemma QuoteAgreesIff(f: Farm, holder: Signer, height: nat)
    requires Valid(f) && f.total > 0 && holder in f.stakers && f.lastReward < height <= f.last
    ensures var due := f.stakers[holder].pending + Newly(f, holder, height);
            && (Quote(f, holder, height) == due <==> Newly(f, holder, height) > 0 || f.stakers[holder].pending == 0)
            && (Claimed(f, holder, height).Ok? ==>
                  due > 0 && Claimed(f, holder, height).value.paid == f.paid + due
                  && Balance(Claimed(f, holder, height).value.tokens, f.tick1, holder) ==
                     Balance(f.tokens, f.tick1, holder) + due)
            && (due > 0 && due <= Balance(f.tokens, f.tick1, Home(f)) ==> Claimed(f, holder, height).Ok?)
  {
    hide Sum, Share;
    UpdatedValid(f, height);
    ShareNonNegative(f, height - f.lastReward);
    SettledBy(Updated(f, height), holder, height);
  }

  /** An unlocked unstake of one's own amount goes through if and only if the farm's address holds that much. */
  lemma UnstakeIff(f: Farm, holder: Signer, amt: int, height: nat)
    requires Valid(f) && holder in f.stakers
    requires 1 <= amt <= f.stakers[holder].amt && f.stakers[holder].unlock <= height
    ensures Unstaked(f, holder, amt, height).Ok? <==> amt <= Balance(f.tokens, f.tick0, Home(f))
  {
    hide Earned;
    SumSplit(Amts(f.stakers), holder);
  }

  /** It always does when the two tokens differ, and when they are the same as long as no more than the reward was paid.
      */
  lemma UnstakeCovered(f: Farm, holder: Signer, amt: int, height: nat)
    requires Valid(f) && Funded(f) && holder in f.stakers
    requires 1 <= amt <= f.stakers[holder].amt && f.stakers[holder].unlock <= height
    requires f.tick0 != f.tick1 || f.paid <= f.reward
    ensures Unstaked(f, holder, amt, height).Ok?
  {
    hide Earned;
    SumSplit(Amts(f.stakers), holder);
    UnstakeIff(f, holder, amt, height);
  }

  // ---------------------------------------------------------------------------------------------------------------
  // Two runs
  // ---------------------------------------------------------------------------------------------------------------

  const MAKER: Signer := User("m")
  const ALICE: Signer := User("a")
  const BOB: Signer := User("b")
  const STAKED := Drc("AAAA")
  const REWARDED := Drc("BBBB")

  lemma TransferDoes(ts: Tokens, tick: Tick, from: Address, to: Address, amt: int)
    requires from != to && 1 <= amt <= Balance(ts, tick, from)
    ensures Transfer(ts, tick, from, to, amt).Ok?
    ensures forall t, a :: Balance(Transfer(ts, tick, from, to, amt).value, t, a) == Balance(ts, t, a)
              + (if t == tick && a == to then amt else 0) - (if t == tick && a == from then amt else 0)
  {}

  /** What a stake changes, for somebody who has the amount. */
  lemma StakeDoes(f: Farm, holder: Signer, amt: nat, height: nat)
    requires f.each > 0 && 1 <= amt <= Balance(f.tokens, f.tick0, holder)
    ensures var g, d := Updated(Started(f, height), height), Do(f, StakeOp(holder, amt, height));
            var s := StakerOf(g, holder, height);
            var settled := if s.amt > 0 then Settled(s, g.acc) else s;
            && d == g.(tokens := d.tokens, total := g.total + amt, steps := g.steps + 1,
                       stakers := g.stakers[holder := settled.(amt := s.amt + amt, debt := Earned(s.amt + amt, g.acc))])
            && forall t, a :: Balance(d.tokens, t, a) == Balance(f.tokens, t, a)
                 + (if t == f.tick0 && a == Home(f) then amt else 0) - (if t == f.tick0 && a == holder then amt else 0)
  {
    hide Transfer, Balance, Earned, Settled;
    TransferDoes(f.tokens, f.tick0, holder, Home(f), amt);
  }

  /** What a claim changes, when something is due and the address has it. */
  lemma ClaimDoes(f: Farm, holder: Signer, height: nat)
    requires f.each > 0 && holder in f.stakers
    requires 1 <= Settled(f.stakers[holder], Updated(f, height).acc).pending <= Balance(f.tokens, f.tick1, Home(f))
    ensures var g, d := Updated(f, height), Do(f, ClaimOp(holder, height));
            var s := g.stakers[holder];
            var due := Settled(s, g.acc).pending;
            && d == g.(tokens := d.tokens, paid := g.paid + due,
                       stakers := g.stakers[holder := s.(pending := 0, debt := Earned(s.amt, g.acc))])
            && forall t, a :: Balance(d.tokens, t, a) == Balance(f.tokens, t, a)
                 + (if t == f.tick1 && a == holder then due else 0) - (if t == f.tick1 && a == Home(f) then due else 0)
  {
    hide Transfer, Balance, Earned, Settled;
    TransferDoes(f.tokens, f.tick1, Home(f), holder, Settled(f.stakers[holder], Updated(f, height).acc).pending);
  }

  lemma {:induction false} DoAllSplit(f: Farm, os: seq<Op>, o: Op)
    requires f.each > 0
    ensures DoAll(f, os + [o]) == Do(DoAll(f, os), o)
    ensures !o.Others? && AllAllowed(f, os) ==> AllAllowed(f, os + [o])
    decreases |os|
  {
    hide Do;
    if os == [] {
      assert [] + [o] == [o] && [o][1..] == [];
    } else {
      assert (os + [o])[0] == os[0] && (os + [o])[1..] == os[1..] + [o];
      DoKeeps(f, os[0]);
      DoAllSplit(Do(f, os[0]), os[1..], o);
    }
  }

  /** A run among no other traffic, one operation at a time. */
  lemma {:induction false} Unrolled(f: Farm, os: seq<Op>, n: nat)
    requires f.each > 0 && n <= |os| && forall o <- os :: !o.Others?
    ensures AllAllowed(f, os[..n])
    ensures n == 0 ==> DoAll(f, os[..n]) == f
    ensures n > 0 ==> DoAll(f, os[..n]) == Do(DoAll(f, os[..n - 1]), os[n - 1])
    decreases n
  {
    hide Do;
    if n > 0 {
      Unrolled(f, os, n - 1);
      DoAllSplit(f, os[..n - 1], os[n - 1]);
      assert os[..n] == os[..n - 1] + [os[n - 1]];
    }
  }

  /** A reward of 1000, 10 a block. Alice stakes 1 at height 1 and 1 more at height 2, which makes 10 pending; then Bob
      stakes so much that the next block's share rounds to nothing. */
  const DILUTED := [StakeOp(ALICE, 1, 1), StakeOp(ALICE, 1, 2), StakeOp(BOB, 10000000000, 2)]

  lemma DilutedRuns(f0: Farm)
    requires f0 == Farm("f", STAKED, REWARDED, 1000, 10, 0, 0, 0, 0, map[], f0.tokens, 0, 0, 0)
    requires Balance(f0.tokens, STAKED, ALICE) == 2 && Balance(f0.tokens, STAKED, BOB) == 10000000000
    ensures var f := DoAll(f0, DILUTED);
            && AllAllowed(f0, DILUTED)
            && f == Farm("f", STAKED, REWARDED, 1000, 10, 10000000002, 1000000000, 2, 101, f.stakers, f.tokens, 0, 3, 1)
            && ALICE in f.stakers && f.stakers[ALICE] == Staker(2, 20, 10, 102)
            && Balance(f.tokens, REWARDED, FarmReserves("f")) == Balance(f0.tokens, REWARDED, FarmReserves("f"))
  {
    hide Balance, Do, DoAll;
    assert STAKED != REWARDED && ALICE != BOB;
    StakeDoes(f0, ALICE, 1, 1);
    var f1 := Do(f0, DILUTED[0]);
    assert f1.stakers == map[ALICE := Staker(1, 0, 0, 102)];
    StakeDoes(f1, ALICE, 1, 2);
    var f2 := Do(f1, DILUTED[1]);
    assert f2.acc == 1000000000 && f2.stakers == map[ALICE := Staker(2, 20, 10, 102)];
    StakeDoes(f2, BOB, 10000000000, 2);
    Unrolled(f0, DILUTED, 3);
    Unrolled(f0, DILUTED, 2);
    Unrolled(f0, DILUTED, 1);
    Unrolled(f0, DILUTED, 0);
    assert DILUTED[..3] == DILUTED;
  }

  /** The quote shows Alice 0 at height 3, where a claim pays her 10. */
  lemma QuoteDropsPending(tokens: Tokens)
    requires Balance(tokens, STAKED, ALICE) == 2 && Balance(tokens, STAKED, BOB) == 10000000000
    requires Balance(tokens, REWARDED, MAKER) == 1000
    ensures var r := Create(tokens, "f", MAKER, STAKED, REWARDED, 1000, 10);
            && r.Ok? && AllAllowed(r.value, DILUTED)
            && var f := DoAll(r.value, DILUTED);
               && ALICE in f.stakers && f.lastReward < 3 <= f.last && f.total > 0
               && Newly(f, ALICE, 3) == 0 && f.stakers[ALICE].pending == 10
               && Quote(f, ALICE, 3) == 0
               && Claimed(f, ALICE, 3).Ok? && Claimed(f, ALICE, 3).value.paid == 10
  {
    hide Transfer, Balance, DoAll, AllAllowed;
    assert STAKED != REWARDED;
    TransferDoes(tokens, REWARDED, MAKER, FarmReserves("f"), 1000);
    var f0 := Create(tokens, "f", MAKER, STAKED, REWARDED, 1000, 10).value;
    DilutedRuns(f0);
    var f := DoAll(f0, DILUTED);
    assert Share(f, 1) == 0;
    TransferDoes(f.tokens, REWARDED, FarmReserves("f"), ALICE, 10);
  }

  /** One token both staked and rewarded, 3 in all, 1 a block: after three stakes the two claims come to 4. */
  const OVERPAID := [StakeOp(ALICE, 2, 1), StakeOp(ALICE, 1, 2), StakeOp(BOB, 1, 2), ClaimOp(ALICE, 4), ClaimOp(BOB, 4),
                     UnstakeOp(ALICE, 3, 5)]

  lemma OverpaidFirst(f0: Farm)
    requires f0 == Farm("f", STAKED, STAKED, 3, 1, 0, 0, 0, 0, map[], f0.tokens, 0, 0, 0)
    requires Balance(f0.tokens, STAKED, ALICE) == 3
    ensures var f := Do(f0, OVERPAID[0]);
            && f == Farm("f", STAKED, STAKED, 3, 1, 2, 0, 1, 4, map[ALICE := Staker(2, 0, 0, 5)], f.tokens, 0, 1, 1)
            && Balance(f.tokens, STAKED, FarmReserves("f")) == Balance(f0.tokens, STAKED, FarmReserves("f")) + 2
            && Balance(f.tokens, STAKED, BOB) == Balance(f0.tokens, STAKED, BOB)
            && Balance(f.tokens, STAKED, ALICE) == 1
  {
    hide Balance, Do;
    assert ALICE != BOB;
    StakeDoes(f0, ALICE, 2, 1);
  }

  lemma OverpaidSecond(f1: Farm)
    requires f1 == Farm("f", STAKED, STAKED, 3, 1, 2, 0, 1, 4, map[ALICE := Staker(2, 0, 0, 5)], f1.tokens, 0, 1, 1)
    requires Balance(f1.tokens, STAKED, ALICE) == 1
    ensures var f := Do(f1, OVERPAID[1]);
            && f == Farm("f", STAKED, STAKED, 3, 1, 3, 50000000, 2, 4, map[ALICE := Staker(3, 1, 1, 5)], f.tokens, 0, 2, 1)
            && Balance(f.tokens, STAKED, FarmReserves("f")) == Balance(f1.tokens, STAKED, FarmReserves("f")) + 1
            && Balance(f.tokens, STAKED, BOB) == Balance(f1.tokens, STAKED, BOB)
  {
    hide Balance, Do;
    assert ALICE != BOB;
    StakeDoes(f1, ALICE, 1, 2);
    assert Share(f1, 1) == 50000000;
  }

  lemma OverpaidStakes(f0: Farm)
    requires f0 == Farm("f", STAKED, STAKED, 3, 1, 0, 0, 0, 0, map[], f0.tokens, 0, 0, 0)
    requires Balance(f0.tokens, STAKED, ALICE) == 3 && Balance(f0.tokens, STAKED, BOB) == 1
    requires Balance(f0.tokens, STAKED, FarmReserves("f")) == 3
    ensures var f := DoAll(f0, OVERPAID[..3]);
            && f == Farm("f", STAKED, STAKED, 3, 1, 4, 50000000, 2, 4, f.stakers, f.tokens, 0, 3, 1)
            && f.stakers == map[ALICE := Staker(3, 1, 1, 5), BOB := Staker(1, 0, 0, 6)]
            && Balance(f.tokens, STAKED, FarmReserves("f")) == 7
  {
    hide Balance, Do, DoAll, Settled;
    assert ALICE != BOB;
    OverpaidFirst(f0);
    OverpaidSecond(Do(f0, OVERPAID[0]));
    var f2 := Do(Do(f0, OVERPAID[0]), OVERPAID[1]);
    StakeDoes(f2, BOB, 1, 2);
    Unrolled(f0, OVERPAID, 3);
    Unrolled(f0, OVERPAID, 2);
    Unrolled(f0, OVERPAID, 1);
    Unrolled(f0, OVERPAID, 0);
  }

  lemma OverpaidClaims(f: Farm)
    requires f == Farm("f", STAKED, STAKED, 3, 1, 4, 50000000, 2, 4, f.stakers, f.tokens, 0, 3, 1)
    requires f.stakers == map[ALICE := Staker(3, 1, 1, 5), BOB := Staker(1, 0, 0, 6)]
    requires Balance(f.tokens, STAKED, FarmReserves("f")) == 7
    ensures var g := Do(Do(f, OVERPAID[3]), OVERPAID[4]);
            && g == Farm("f", STAKED, STAKED, 3, 1, 4, 100000000, 4, 4, g.stakers, g.tokens, 4, 3, 1)
            && g.stakers == map[ALICE := Staker(3, 3, 0, 5), BOB := Staker(1, 1, 0, 6)]
            && Balance(g.tokens, STAKED, FarmReserves("f")) == 3
  {
    hide Balance, Do;
    assert ALICE != BOB;
    ClaimDoes(f, ALICE, 4);
    var f1 := Do(f, OVERPAID[3]);
    assert f1.acc == 100000000;
    ClaimDoes(f1, BOB, 4);
  }

  /** Alice takes out her 3, and Bob's 1 is no longer there. */
  lemma SharedTokenShort(tokens: Tokens)
    requires Balance(tokens, STAKED, MAKER) == 3 && Balance(tokens, STAKED, FarmReserves("f")) == 0
    requires Balance(tokens, STAKED, ALICE) == 3 && Balance(tokens, STAKED, BOB) == 1
    ensures var r := Create(tokens, "f", MAKER, STAKED, STAKED, 3, 1);
            && r.Ok? && AllAllowed(r.value, OVERPAID)
            && var f := DoAll(r.value, OVERPAID);
               && f.paid == 4 && f.reward == 3
               && BOB in f.stakers && f.stakers[BOB].amt == 1 && f.stakers[BOB].unlock <= 6
               && Unstaked(f, BOB, 1, 6) == Failed
  {
    hide Transfer, Balance, DoAll, AllAllowed, Do;
    assert ALICE != BOB && MAKER != ALICE && MAKER != BOB;
    TransferDoes(tokens, STAKED, MAKER, FarmReserves("f"), 3);
    var f0 := Create(tokens, "f", MAKER, STAKED, STAKED, 3, 1).value;
    OverpaidStakes(f0);
    OverpaidClaims(DoAll(f0, OVERPAID[..3]));
    Unrolled(f0, OVERPAID, 6);
    Unrolled(f0, OVERPAID, 5);
    Unrolled(f0, OVERPAID, 4);
    assert OVERPAID[..6] == OVERPAID;
    LastOut(DoAll(f0, OVERPAID[..5]));
  }

  lemma LastOut(f: Farm)
    requires f == Farm("f", STAKED, STAKED, 3, 1, 4, 100000000, 4, 4, f.stakers, f.tokens, 4, 3, 1)
    requires f.stakers == map[ALICE := Staker(3, 3, 0, 5), BOB := Staker(1, 1, 0, 6)]
    requires Balance(f.tokens, STAKED, FarmReserves("f")) == 3
    ensures var g := Do(f, UnstakeOp(ALICE, 3, 5));
            && g.paid == 4 && g.reward == 3 && BOB in g.stakers && g.stakers[BOB] == Staker(1, 1, 0, 6)
            && Unstaked(g, BOB, 1, 6) == Failed
  {
    hide Balance, Transfer;
    assert ALICE != BOB;
    TransferDoes(f.tokens, STAKED, FarmReserves("f"), ALICE, 3);
    var g := Do(f, UnstakeOp(ALICE, 3, 5));
    NothingThere(g.tokens, FarmReserves("f"), BOB);
  }

  lemma NothingThere(ts: Tokens, from: Address, to: Address)
    requires Balance(ts, STAKED, from) == 0
    ensures Transfer(ts, STAKED, from, to, 1) == Failed
  {}

  // ---------------------------------------------------------------------------------------------------------------
  // In place
  // ---------------------------------------------------------------------------------------------------------------

  /** The rows of one farm and the ledger, updated in place. A method that returns false may have left writes
      in the open database transaction, which its caller then rolls back. */
  class FarmTable {
    const id: string
    const tick0: Tick
    const tick1: Tick
    const reward: nat
    const each: nat
    var total: nat
    var acc: nat
    var lastReward: nat
    var last: nat
    var stakers: map<Signer, Staker>
    var tokens: Tokens
    ghost var paid: nat
    ghost var steps: nat
    ghost var first: nat

    ghost function State(): Farm
      reads this
    {
      Farm(id, tick0, tick1, reward, each, total, acc, lastReward, last, stakers, tokens, paid, steps, first)
    }

    constructor (f: Farm)
      ensures State() == f
    {
      id, tick0, tick1, reward, each := f.id, f.tick0, f.tick1, f.reward, f.each;
      total, acc, lastReward, last := f.total, f.acc, f.lastReward, f.last;
      stakers, tokens := f.stakers, f.tokens;
      paid, steps, first := f.paid, f.steps, f.first;
    }

    method TransferDrc20(tick: Tick, from: Address, to: Address, amt: int) returns (ok: bool)
      modifies this`tokens
      ensures ok == Transfer(old(tokens), tick, from, to, amt).Ok? && (ok ==> amt >= 1)
      ensures tokens == if ok then Transfer(old(tokens), tick, from, to, amt).value else old(tokens)
    {
      match Transfer(tokens, tick, from, to, amt)
      case Failed => ok := false;
      case Ok(ts) =>
        tokens := ts;
        ok := true;
    }

    /** `StakeV2UpdatePool`: nothing before the last settlement or after the last block. */
    method UpdatePool(height: nat)
      modifies this`acc, this`lastReward
      ensures State() == Updated(old(State()), height)
    {
      if lastReward >= height || last < height { return; }
      if total == 0 {
        lastReward := height;
        return;
      }
      var blocksPassed := height - lastReward;
      ghost var f := State();
      ShareNonNegative(f, blocksPassed);
      acc := acc + blocksPassed * each * SCALE / total;
      lastReward := height;
    }

    /** The first stake starts the clock. */
    method Start(height: nat)
      requires each > 0
      modifies this`lastReward, this`last, this`first
      ensures State() == Started(old(State()), height)
    {
      if lastReward == 0 {
        lastReward := height;
        last := reward / each + height;
        first := height;
      }
    }

    /** Settle a staker and add to the stake. */
    method Add(holder: Signer, amt: nat)
      requires holder in stakers
      modifies this`stakers, this`total, this`steps
      ensures var s := old(stakers)[holder];
              var settled := if s.amt > 0 then Settled(s, acc) else s;
              State() == old(State()).(total := old(total) + amt, steps := old(steps) + 1,
                                       stakers := old(stakers)[holder := settled.(amt := s.amt + amt,
                                                                                 debt := Earned(s.amt + amt, acc))])
    {
      var stakea := stakers[holder];
      if stakea.amt > 0 {
        var pending := stakea.amt * acc / SCALE - stakea.debt;
        if pending > 0 {
          stakea := stakea.(pending := stakea.pending + pending);
        }
      }
      stakea := stakea.(amt := stakea.amt + amt);
      stakea := stakea.(debt := stakea.amt * acc / SCALE);
      stakers := stakers[holder := stakea];
      total := total + amt;
      steps := steps + 1;
    }

    /** `StakeV2Stake`. */
    method Stake(holder: Signer, amt: int, height: nat) returns (ok: bool)
      requires each > 0
      modifies this
      ensures ok == Staked(old(State()), holder, amt, height).Ok?
      ensures ok ==> State() == Staked(old(State()), holder, amt, height).value
    {
      hide Updated, Started, Transfer, Settled, Earned;
      Start(height);
      UpdatePool(height);
      if holder !in stakers {
        stakers := stakers[holder := Staker(0, 0, 0, height + last)];
      }
      ok := TransferDrc20(tick0, holder, FarmReserves(id), amt);
      if !ok { return; }
      Add(holder, amt);
    }

    /** `verifyStakeV2UnStake` and `StakeV2UnStake`: principal back from an unlocked stake. */
    method Unstake(holder: Signer, amt: int, height: nat) returns (ok: bool)
      modifies this
      ensures ok == Unstaked(old(State()), holder, amt, height).Ok?
      ensures ok ==> State() == Unstaked(old(State()), holder, amt, height).value
    {
      hide Updated, Transfer;
      ok := false;
      if amt < 1 || holder !in stakers { return; }
      if stakers[holder].unlock > height || amt > stakers[holder].amt || amt > total { return; }
      UpdatePool(height);
      var stakea := stakers[holder];
      var pending := stakea.amt * acc / SCALE - stakea.debt;
      if pending > 0 {
        stakea := stakea.(pending := stakea.pending + pending);
      }
      stakea := stakea.(amt := stakea.amt - amt);
      stakea := stakea.(debt := stakea.amt * acc / SCALE);
      stakers := stakers[holder := stakea];
      total := total - amt;
      steps := steps + 1;
      ok := TransferDrc20(tick0, FarmReserves(id), holder, amt);
    }

    /** `StakeV2GetReward`: all that is pending or accrued, or an error when that is nothing. */
    method GetReward(holder: Signer, height: nat) returns (ok: bool)
      modifies this
      ensures ok == Claimed(old(State()), holder, height).Ok?
      ensures ok ==> State() == Claimed(old(State()), holder, height).value
    {
      hide Updated, Transfer;
      ok := false;
      if holder !in stakers { return; }
      UpdatePool(height);
      var stakea := stakers[holder];
      var pending := stakea.amt * acc / SCALE - stakea.debt;
      if pending > 0 {
        stakea := stakea.(pending := stakea.pending + pending);
      }
      var rewardsToPay := stakea.pending;
      if rewardsToPay <= 0 { return; }
      stakea := stakea.(pending := 0, debt := stakea.amt * acc / SCALE);
      stakers := stakers[holder := stakea];
      paid := paid + rewardsToPay;
      ok := TransferDrc20(tick1, FarmReserves(id), holder, rewardsToPay);
    }
  }
}
