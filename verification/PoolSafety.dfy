/** What every run keeps of every pool: v1 and v2, whoever trades, and whatever is sent to the reserves directly. */
module PoolSafety {
  import opened Names
  import opened Ledger
  import opened Db
  import opened Quotes
  import opened Effects

  function ShapeOf(p: Pool): Shape {
    Shape(p.amt0, p.amt1, p.total)
  }

  /** The cached reserves are covered by the ledger, the cached total is the liquidity issued, the minimum liquidity is
      still at the reserves address, and the pool is sound. */
  ghost predicate PoolInv(d: Database, id: PoolId) {
    id in d.pools ==>
      var p := d.pools[id];
      && LpTick(id) in BookOf(d, LpTick(id)).tokens
      && p.tick0 != p.tick1 && p.tick0 != LpTick(id) && p.tick1 != LpTick(id)
      && p.amt0 <= Bal(d, p.tick0, Reserves(id))
      && p.amt1 <= Bal(d, p.tick1, Reserves(id))
      && p.total == Issued(d, LpTick(id))
      && MINI_LIQUIDITY <= Bal(d, LpTick(id), Reserves(id))
      && Sound(ShapeOf(p))
  }

  /** The cache is exactly what the ledger says. */
  ghost predicate PoolAgrees(d: Database, id: PoolId) {
    id in d.pools ==>
      && LpTick(id) in BookOf(d, LpTick(id)).tokens
      && Refreshed(d.drc20.tokens, d.meme20.tokens, id, d.pools[id]) == d.pools[id]
  }

  ghost predicate ConservedAll(d: Database) {
    Conserved(d.drc20.tokens) && Conserved(d.meme20.tokens)
  }

  // ---------------------------------------------------------------------------------------------------------------
  // Writes about something else
  // ---------------------------------------------------------------------------------------------------------------

  /** The write takes nothing out of the pool and does not concern its row or its liquidity token. */
  predicate Spares(s: Step, id: PoolId) {
    match s
    case Move(_, from, _, _) => from != Reserves(id)
    case MintTo(tick, _, _) => tick != LpTick(id)
    case BurnFrom(tick, from, _) => from != Reserves(id) && tick != LpTick(id)
    case OpenPool(pool, _, _) => pool != id
    case Refresh(pool) => pool != id
    case _ => true
  }

  /** It also puts nothing into the pool. */
  predicate Ignores(s: Step, id: PoolId) {
    && Spares(s, id)
    && match s
       case Move(_, _, to, _) => to != Reserves(id)
       case MintTo(_, to, _) => to != Reserves(id)
       case OpenCurve(_, creator, _) => creator != Reserves(id)
       case _ => true
  }

  lemma SparesBalances(d: Database, s: Step, height: nat, id: PoolId, t: Tick)
    requires Apply(d, s, height).Ok? && Spares(s, id)
    ensures Bal(Apply(d, s, height).value, t, Reserves(id)) >= Bal(d, t, Reserves(id))
    ensures Ignores(s, id) ==> Bal(Apply(d, s, height).value, t, Reserves(id)) == Bal(d, t, Reserves(id))
  {
    hide Apply;
    StepEffect(d, s, height, t, Reserves(id));
    MoveNeeds(d, s, height);
  }

  lemma SparesIssue(d: Database, s: Step, height: nat, id: PoolId)
    requires Apply(d, s, height).Ok? && Spares(s, id) && LpTick(id) in BookOf(d, LpTick(id)).tokens
    ensures Issued(Apply(d, s, height).value, LpTick(id)) == Issued(d, LpTick(id))
    ensures LpTick(id) in BookOf(Apply(d, s, height).value, LpTick(id)).tokens
  {
    StepKeeps(d, s, height);
    StepEffect(d, s, height, LpTick(id), Nobody);
  }

  lemma ApplySpares(d: Database, s: Step, height: nat, id: PoolId)
    requires Apply(d, s, height).Ok? && Spares(s, id)
    ensures var d' := Apply(d, s, height).value;
            && (PoolInv(d, id) ==> PoolInv(d', id))
            && (id in d'.pools <==> id in d.pools)
            && (id in d.pools ==> d'.pools[id] == d.pools[id])
            && (Ignores(s, id) && PoolAgrees(d, id) ==> PoolAgrees(d', id))
  {
    hide Apply, Spares, Ignores, Sound;
    assert s != Refresh(id) && !(s.OpenPool? && s.pool == id) by { SparesRow(s, id); }
    StepPools(d, s, height, id);
    if id in d.pools {
      SparesBalances(d, s, height, id, d.pools[id].tick0);
      SparesBalances(d, s, height, id, d.pools[id].tick1);
      SparesBalances(d, s, height, id, LpTick(id));
      if LpTick(id) in BookOf(d, LpTick(id)).tokens {
        SparesIssue(d, s, height, id);
      }
    }
  }

  lemma SparesRow(s: Step, id: PoolId)
    requires Spares(s, id)
    ensures s != Refresh(id) && !(s.OpenPool? && s.pool == id)
  {}

  lemma {:induction false} RunSpares(d: Database, script: seq<Step>, height: nat, id: PoolId)
    requires Run(d, script, height).Ok? && forall s <- script :: Spares(s, id)
    ensures PoolInv(d, id) ==> PoolInv(Run(d, script, height).value, id)
    ensures id in Run(d, script, height).value.pools <==> id in d.pools
    ensures id in d.pools ==> Run(d, script, height).value.pools[id] == d.pools[id]
    ensures (forall s <- script :: Ignores(s, id)) && PoolAgrees(d, id) ==> PoolAgrees(Run(d, script, height).value, id)
    decreases |script|
  {
    hide Apply, Spares, Ignores, PoolInv, PoolAgrees;
    if script != [] {
      ApplySpares(d, script[0], height, id);
      RunSpares(Apply(d, script[0], height).value, script[1..], height, id);
    }
  }

  lemma {:induction false} RunConserves(d: Database, script: seq<Step>, height: nat)
    requires ConservedAll(d) && Run(d, script, height).Ok?
    ensures ConservedAll(Run(d, script, height).value)
    decreases |script|
  {
    if script != [] {
      ApplyConserves(d, script[0], height);
      RunConserves(Apply(d, script[0], height).value, script[1..], height);
    }
  }

  lemma PostConserves(d: Database, ts: Tokens, p: Posting, height: nat)
    requires ConservedAll(d) && Conserved(ts)
    ensures ConservedAll(Post(d, ts, p, height))
  {}

  lemma AddTokenConserves(d: Database, tick: Tick, t: Token)
    requires ConservedAll(d) && |t.holders| == t.supply
    ensures ConservedAll(AddToken(d, tick, t))
  {}

  lemma ApplyConserves(d: Database, s: Step, height: nat)
    requires ConservedAll(d) && Apply(d, s, height).Ok?
    ensures ConservedAll(Apply(d, s, height).value)
  {
    hide CurveToken, Transfer, Mint, Burn, Post, AddToken, Conserved;
    MoveNeeds(d, s, height);
    BooksConserved(d);
    match s
    case Move(tick, from, to, amt) =>
      var ts := BookOf(d, tick).tokens;
      TransferConserves(ts, tick, from, to, amt);
      PostConserves(d, Transfer(ts, tick, from, to, amt).value, Posting(from, to, tick, amt), height);
    case MintTo(tick, to, units) =>
      var ts := BookOf(d, tick).tokens;
      MintIsKnown(ts, tick, to, units);
      MintConserves(ts, tick, to, units);
      PostConserves(d, Mint(ts, tick, to, units).value, Posting(Nobody, to, tick, units), height);
    case BurnFrom(tick, from, units) =>
      var ts := BookOf(d, tick).tokens;
      BurnConserves(ts, tick, from, units);
      PostConserves(d, Burn(ts, tick, from, units).value, Posting(from, Nobody, tick, units), height);
    case DeployTick(tick, max, lim) => AddTokenConserves(d, tick, Token(0, max, lim, multiset{}));
    case OpenPool(pool, _, _) => AddTokenConserves(d, LpTick(pool), Token(0, MAX_NUMBER, 0, multiset{}));
    case OpenCurve(id, creator, reserve) =>
      CurveTokenConserves(id, creator, reserve);
      AddTokenConserves(d, Meme(id), CurveToken(id, creator, reserve));
    case _ =>
  }

  lemma MintIsKnown(ts: Tokens, tick: Tick, to: Address, units: nat)
    requires Mint(ts, tick, to, units).Ok?
    ensures tick in ts
  {}

  lemma BooksConserved(d: Database)
    requires ConservedAll(d)
    ensures forall t :: Conserved(BookOf(d, t).tokens)
  {}

  lemma CurveTokenConserves(id: string, creator: Signer, reserve: nat)
    requires reserve <= 99
    ensures |CurveToken(id, creator, reserve).holders| == MEME_MAX == CurveToken(id, creator, reserve).supply
  {
    var share := CurveShare(reserve);
    assert |multiset{}[PumpReserves(id) := share]| == share;
  }

  // ---------------------------------------------------------------------------------------------------------------
  // Scripts about one pool, or about none
  // ---------------------------------------------------------------------------------------------------------------

  /** Everything the theorem is about: both ledgers conserved, every pool sound. */
  ghost predicate Safe(d: Database) {
    ConservedAll(d) && forall id :: PoolInv(d, id)
  }

  ghost predicate Agreed(d: Database) {
    forall id :: PoolAgrees(d, id)
  }

  ghost predicate Kept(d: Database, d': Database, id: PoolId)
    requires id in d.pools
  {
    && id in d'.pools
    && d'.pools[id].tick0 == d.pools[id].tick0
    && d'.pools[id].tick1 == d.pools[id].tick1
    && NoDilution(ShapeOf(d.pools[id]), ShapeOf(d'.pools[id]))
  }

  /** No pool is lost, and the value of no pool's liquidity falls. */
  ghost predicate Undiluted(d: Database, d': Database) {
    forall id <- d.pools :: Kept(d, d', id)
  }

  predicate Elsewhere(s: Step) {
    match s
    case Move(_, from, _, _) => !from.Reserves?
    case MintTo(tick, _, _) => tick.Drc?
    case BurnFrom(tick, from, _) => tick.Drc? && !from.Reserves?
    case OpenPool(_, _, _) => false
    case Refresh(_) => false
    case _ => true
  }

  predicate Local(s: Step, id: PoolId) {
    || Elsewhere(s)
    || match s
       case Move(_, from, _, _) => from == Reserves(id)
       case MintTo(tick, _, _) => tick == LpTick(id)
       case BurnFrom(tick, from, _) => tick == LpTick(id) && !from.Reserves?
       case OpenPool(pool, _, _) => pool == id
       case Refresh(pool) => pool == id
       case _ => false
  }

  /** Nothing is paid to a reserves address. */
  predicate NoGift(s: Step) {
    match s
    case Move(_, _, to, _) => !to.Reserves?
    case MintTo(_, to, _) => !to.Reserves?
    case _ => true
  }

  predicate Tidy(s: Step, id: PoolId) {
    || NoGift(s)
    || match s
       case Move(_, _, to, _) => to == Reserves(id)
       case MintTo(_, to, _) => to == Reserves(id)
       case _ => false
  }

  lemma LocalSpares(s: Step, id: PoolId, other: PoolId)
    requires Local(s, id) && (other != id || Elsewhere(s))
    ensures Spares(s, other)
    ensures NoGift(s) || (Tidy(s, id) && other != id) ==> Ignores(s, other)
  {}

  lemma OtherPool(d: Database, script: seq<Step>, height: nat, id: PoolId, other: PoolId)
    requires Run(d, script, height).Ok?
    requires forall s <- script :: Local(s, id) && (other != id || Elsewhere(s))
    ensures PoolInv(d, other) ==> PoolInv(Run(d, script, height).value, other)
    ensures other in Run(d, script, height).value.pools <==> other in d.pools
    ensures other in d.pools ==> Run(d, script, height).value.pools[other] == d.pools[other]
    ensures (forall s <- script :: NoGift(s) || (Tidy(s, id) && other != id)) && PoolAgrees(d, other) ==>
              PoolAgrees(Run(d, script, height).value, other)
  {
    hide Run, Local, Elsewhere, Tidy, NoGift, Spares, Ignores, PoolInv, PoolAgrees;
    forall s | s in script
      ensures Spares(s, other)
      ensures NoGift(s) || (Tidy(s, id) && other != id) ==> Ignores(s, other)
    {
      LocalSpares(s, id, other);
    }
    RunSpares(d, script, height, other);
  }

  /** A script that concerns no pool at all. */
  lemma ElsewhereSafe(d: Database, script: seq<Step>, height: nat)
    requires Safe(d) && Run(d, script, height).Ok? && forall s <- script :: Elsewhere(s)
    ensures var d' := Run(d, script, height).value;
            && Safe(d') && Undiluted(d, d') && ((forall s <- script :: NoGift(s)) && Agreed(d) ==> Agreed(d'))
  {
    hide Run, Elsewhere, NoGift, Tidy, PoolInv, PoolAgrees, Conserved;
    RunConserves(d, script, height);
    forall id
      ensures PoolInv(Run(d, script, height).value, id)
      ensures id in d.pools ==> Kept(d, Run(d, script, height).value, id)
      ensures (forall s <- script :: NoGift(s)) && Agreed(d) ==> PoolAgrees(Run(d, script, height).value, id)
    {
      OtherPool(d, script, height, id, id);
    }
  }

  /** A script about one pool, given what it does to that pool. */
  lemma LocalSafe(d: Database, script: seq<Step>, height: nat, id: PoolId)
    requires Safe(d) && Run(d, script, height).Ok? && forall s <- script :: Local(s, id)
    requires var d' := Run(d, script, height).value;
             PoolInv(d', id) && PoolAgrees(d', id) && (id in d.pools ==> Kept(d, d', id))
    ensures var d' := Run(d, script, height).value;
            && Safe(d') && Undiluted(d, d') && ((forall s <- script :: Tidy(s, id)) && Agreed(d) ==> Agreed(d'))
  {
    hide Run, Elsewhere, Local, NoGift, Tidy, PoolInv, PoolAgrees, Conserved;
    RunConserves(d, script, height);
    forall other | other != id
      ensures PoolInv(Run(d, script, height).value, other)
      ensures other in d.pools ==> Kept(d, Run(d, script, height).value, other)
      ensures (forall s <- script :: Tidy(s, id)) && Agreed(d) ==> PoolAgrees(Run(d, script, height).value, other)
    {
      OtherPool(d, script, height, id, other);
    }
  }

  lemma RefreshedRow(d: Database, id: PoolId, tick0: Tick, tick1: Tick)
    requires id in d.pools && LpTick(id) in BookOf(d, LpTick(id)).tokens
    requires d.pools[id] == Pool(tick0, tick1, Bal(d, tick0, Reserves(id)), Bal(d, tick1, Reserves(id)), Issued(d, LpTick(id)))
    requires tick0 != tick1 && tick0 != LpTick(id) && tick1 != LpTick(id)
    requires MINI_LIQUIDITY <= Bal(d, LpTick(id), Reserves(id)) && Sound(ShapeOf(d.pools[id]))
    ensures PoolInv(d, id) && PoolAgrees(d, id)
  {}

  /** Ledger writes followed by a refresh: the row is what the ledger then says. */
  lemma Settled(d: Database, writes: seq<Step>, id: PoolId, height: nat)
    requires id in d.pools && Run(d, writes + [Refresh(id)], height).Ok? && forall s <- writes :: Ledgerly(s)
    ensures Run(d, writes, height).Ok?
    ensures var m := Run(d, writes, height).value;
            var f := Run(d, writes + [Refresh(id)], height).value;
            && m.pools == d.pools
            && f.drc20 == m.drc20 && f.meme20 == m.meme20
            && f.infos == d.infos
            && id in f.pools
            && f.pools[id] == Pool(d.pools[id].tick0, d.pools[id].tick1,
                                   Bal(m, d.pools[id].tick0, Reserves(id)), Bal(m, d.pools[id].tick1, Reserves(id)),
                                   Issued(m, LpTick(id)))
  {
    hide Ledgerly;
    RunAppend(d, writes, [Refresh(id)], height);
    LedgerlyRun(d, writes, height);
    var m := Run(d, writes, height).value;
    assert Run(m, [Refresh(id)], height) == Run(Apply(m, Refresh(id), height).value, [], height);
  }
}
