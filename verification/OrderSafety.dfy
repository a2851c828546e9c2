/** Create, add, remove and swap, v1 and v2: each keeps every pool sound and dilutes nobody. */
module OrderSafety {
  import opened Results
  import opened Names
  import opened Ledger
  import opened Db
  import opened Quotes
  import opened Swap
  import opened Effects
  import opened PoolSafety

  /** What an operation promises of the state it leaves; `tidy` when it pays nothing to a reserves address directly. */
  ghost predicate Keeps(d: Database, d': Database, tidy: bool) {
    && Safe(d')
    && Undiluted(d, d')
    && (tidy && Agreed(d) ==> Agreed(d'))
  }

  lemma OneHolder(d: Database, tick: Tick, a: Address)
    requires ConservedAll(d)
    ensures Bal(d, tick, a) <= Issued(d, tick)
  {
    TwoHolders(BookOf(d, tick).tokens, tick, a, if a == Nobody then User("") else Nobody);
  }

  // ---------------------------------------------------------------------------------------------------------------
  // Create
  // ---------------------------------------------------------------------------------------------------------------

  function CreateMoves(holder: Party, pool: PoolId, tick0: Tick, tick1: Tick, amt0: int, amt1: int): seq<Step>
    requires amt0 >= 1 && amt1 >= 1 && Isqrt(amt0 * amt1) > MINI_LIQUIDITY
  {
    [Move(tick0, holder, Reserves(pool), amt0),
     Move(tick1, holder, Reserves(pool), amt1),
     MintTo(LpTick(pool), holder, Isqrt(amt0 * amt1) - MINI_LIQUIDITY),
     MintTo(LpTick(pool), Reserves(pool), MINI_LIQUIDITY)]
  }

  /** The two paid-in tokens are not the new liquidity token: nobody holds any of that yet. */
  lemma PaidInOther(d: Database, holder: Party, pool: PoolId, tick0: Tick, tick1: Tick, amt0: int, amt1: int, height: nat)
    requires amt0 >= 1 && amt1 >= 1 && Isqrt(amt0 * amt1) > MINI_LIQUIDITY && tick0 != tick1
    requires Run(d, CreateMoves(holder, pool, tick0, tick1, amt0, amt1), height).Ok?
    requires Bal(d, LpTick(pool), holder) == 0
    ensures tick0 != LpTick(pool) && tick1 != LpTick(pool) && holder != Reserves(pool)
  {
    hide Apply, Delta;
    var moves := CreateMoves(holder, pool, tick0, tick1, amt0, amt1);
    MoveNeeds(d, moves[0], height);
    var d1 := Apply(d, moves[0], height).value;
    assert Run(d, moves, height) == Run(d1, moves[1..], height);
    assert moves[1..][0] == moves[1];
    MoveNeeds(d1, moves[1], height);
    StepEffect(d, moves[0], height, tick1, holder);
    assert Delta(moves[0], tick1, holder) == 0 by { OtherTick(moves[0], tick1, holder); }
  }

  lemma OtherTick(s: Step, t: Tick, a: Address)
    requires s.Move? && s.tick != t
    ensures Delta(s, t, a) == 0 && SupplyDelta(s, t) == 0
  {}

  lemma CreateDeltas(holder: Party, pool: PoolId, tick0: Tick, tick1: Tick, amt0: int, amt1: int)
    requires amt0 >= 1 && amt1 >= 1 && Isqrt(amt0 * amt1) > MINI_LIQUIDITY && tick0 != tick1
    requires tick0 != LpTick(pool) && tick1 != LpTick(pool) && holder != Reserves(pool)
    ensures var moves := CreateMoves(holder, pool, tick0, tick1, amt0, amt1);
            && Total(moves, tick0, Reserves(pool)) == amt0
            && Total(moves, tick1, Reserves(pool)) == amt1
            && Total(moves, LpTick(pool), Reserves(pool)) == MINI_LIQUIDITY
            && SupplyTotal(moves, LpTick(pool)) == Isqrt(amt0 * amt1)
  {
    var m := CreateMoves(holder, pool, tick0, tick1, amt0, amt1);
    Total4(m[0], m[1], m[2], m[3], tick0, Reserves(pool));
    Total4(m[0], m[1], m[2], m[3], tick1, Reserves(pool));
    Total4(m[0], m[1], m[2], m[3], LpTick(pool), Reserves(pool));
  }

  lemma OpenedPool(d: Database, pool: PoolId, tick0: Tick, tick1: Tick, height: nat, t: Tick, a: Address)
    requires Apply(d, OpenPool(pool, tick0, tick1), height).Ok?
    ensures var d' := Apply(d, OpenPool(pool, tick0, tick1), height).value;
            && pool !in d.pools && pool in d'.pools && d'.pools[pool] == Pool(tick0, tick1, 0, 0, 0)
            && LpTick(pool) in BookOf(d', LpTick(pool)).tokens
            && Bal(d', t, a) == Bal(d, t, a)
            && Bal(d', LpTick(pool), a) == 0 && Issued(d', LpTick(pool)) == 0
  {
    StepEffect(d, OpenPool(pool, tick0, tick1), height, t, a);
  }

  lemma CreateCore(d: Database, holder: Party, pool: PoolId, tick0: Tick, tick1: Tick, amt0: int, amt1: int, height: nat)
    requires CreateScript(holder, pool, tick0, tick1, amt0, amt1).Ok?
    requires Run(d, CreateScript(holder, pool, tick0, tick1, amt0, amt1).value, height).Ok?
    ensures var f := Run(d, CreateScript(holder, pool, tick0, tick1, amt0, amt1).value, height).value;
            && pool !in d.pools && pool in f.pools
            && f.pools[pool].tick0 == tick0 && f.pools[pool].tick1 == tick1
            && f.pools[pool].total == Isqrt(amt0 * amt1)
            && f.pools[pool].amt0 == Bal(d, tick0, Reserves(pool)) + amt0
            && f.pools[pool].amt1 == Bal(d, tick1, Reserves(pool)) + amt1
            && PoolInv(f, pool) && PoolAgrees(f, pool)
  {
    hide Apply, Total, SupplyTotal, Sound, PoolInv, PoolAgrees;
    var script := CreateScript(holder, pool, tick0, tick1, amt0, amt1).value;
    var moves := CreateMoves(holder, pool, tick0, tick1, amt0, amt1);
    assert script == [OpenPool(pool, tick0, tick1)] + (moves + [Refresh(pool)]);
    var d1 := Apply(d, script[0], height).value;
    assert script[1..] == moves + [Refresh(pool)];
    OpenedPool(d, pool, tick0, tick1, height, tick0, Reserves(pool));
    OpenedPool(d, pool, tick0, tick1, height, tick1, Reserves(pool));
    OpenedPool(d, pool, tick0, tick1, height, tick0, holder);
    Settled(d1, moves, pool, height);
    LedgerlyRun(d1, moves, height);
    PaidInOther(d1, holder, pool, tick0, tick1, amt0, amt1, height);
    CreateDeltas(holder, pool, tick0, tick1, amt0, amt1);
    RunEffect(d1, moves, height, tick0, Reserves(pool));
    RunEffect(d1, moves, height, tick1, Reserves(pool));
    RunEffect(d1, moves, height, LpTick(pool), Reserves(pool));
    var f := Run(d, script, height).value;
    CreateSound(amt0, amt1, ShapeOf(f.pools[pool]));
    RefreshedRow(f, pool, tick0, tick1);
  }

  lemma CreateLocal(holder: Party, pool: PoolId, tick0: Tick, tick1: Tick, amt0: int, amt1: int)
    requires !holder.Reserves?
    requires CreateScript(holder, pool, tick0, tick1, amt0, amt1).Ok?
    ensures forall s <- CreateScript(holder, pool, tick0, tick1, amt0, amt1).value :: Local(s, pool) && Tidy(s, pool)
  {}

  lemma CreateSafe(d: Database, holder: Party, pool: PoolId, tick0: Tick, tick1: Tick, amt0: int, amt1: int, height: nat)
    requires Safe(d) && !holder.Reserves?
    requires CreateScript(holder, pool, tick0, tick1, amt0, amt1).Ok?
    requires Run(d, CreateScript(holder, pool, tick0, tick1, amt0, amt1).value, height).Ok?
    ensures Keeps(d, Run(d, CreateScript(holder, pool, tick0, tick1, amt0, amt1).value, height).value, true)
    ensures PoolAgrees(Run(d, CreateScript(holder, pool, tick0, tick1, amt0, amt1).value, height).value, pool)
  {
    hide Run, CreateScript, PoolInv, PoolAgrees;
    CreateCore(d, holder, pool, tick0, tick1, amt0, amt1, height);
    CreateLocal(holder, pool, tick0, tick1, amt0, amt1);
    LocalSafe(d, CreateScript(holder, pool, tick0, tick1, amt0, amt1).value, height, pool);
  }

  // ---------------------------------------------------------------------------------------------------------------
  // Add
  // ---------------------------------------------------------------------------------------------------------------

  /** The settled amounts never exceed the offered ones. */
  lemma SettledWithin(amt0: nat, amt1: nat, min0: int, min1: int, r0: nat, r1: nat)
    requires AddAmounts(amt0, amt1, min0, min1, r0, r1).Ok?
    ensures var v := AddAmounts(amt0, amt1, min0, min1, r0, r1).value;
            v.0 <= amt0 && v.1 <= amt1
  {}

  /** Both sides pay in, liquidity is minted: the script of an add, whatever the amounts. */
  function AddMoves(holder: Signer, pool: PoolId, p: Pool, pay0: nat, pay1: nat, minted: nat): seq<Step> {
    [Move(p.tick0, holder, Reserves(pool), pay0),
     Move(p.tick1, holder, Reserves(pool), pay1),
     MintTo(LpTick(pool), holder, minted)]
  }

  lemma AddDeltas(holder: Signer, pool: PoolId, p: Pool, pay0: nat, pay1: nat, minted: nat)
    requires p.tick0 != p.tick1 && p.tick0 != LpTick(pool) && p.tick1 != LpTick(pool)
    ensures var moves := AddMoves(holder, pool, p, pay0, pay1, minted);
            && Total(moves, p.tick0, Reserves(pool)) == pay0
            && Total(moves, p.tick1, Reserves(pool)) == pay1
            && Total(moves, LpTick(pool), Reserves(pool)) == 0
            && SupplyTotal(moves, LpTick(pool)) == minted
  {
    var m := AddMoves(holder, pool, p, pay0, pay1, minted);
    Total3(m[0], m[1], m[2], p.tick0, Reserves(pool));
    Total3(m[0], m[1], m[2], p.tick1, Reserves(pool));
    Total3(m[0], m[1], m[2], LpTick(pool), Reserves(pool));
  }

  lemma AddCore(d: Database, holder: Signer, pool: PoolId, a0: nat, a1: nat, pay0: nat, pay1: nat, height: nat)
    requires pool in d.pools && PoolInv(d, pool) && a0 <= pay0 && a1 <= pay1
    requires d.pools[pool].amt0 > 0 && d.pools[pool].amt1 > 0
    requires var p := d.pools[pool];
             Run(d, AddMoves(holder, pool, p, pay0, pay1, Minted(a0, a1, p.amt0, p.amt1, p.total)) + [Refresh(pool)],
                 height).Ok?
    ensures var p := d.pools[pool];
            var f := Run(d, AddMoves(holder, pool, p, pay0, pay1, Minted(a0, a1, p.amt0, p.amt1, p.total))
                            + [Refresh(pool)], height).value;
            PoolInv(f, pool) && PoolAgrees(f, pool) && Kept(d, f, pool)
  {
    hide Apply, Run, Total, SupplyTotal, Minted, NoDilution, Sound, PoolAgrees;
    var p := d.pools[pool];
    var minted := Minted(a0, a1, p.amt0, p.amt1, p.total);
    var moves := AddMoves(holder, pool, p, pay0, pay1, minted);
    Settled(d, moves, pool, height);
    LedgerlyRun(d, moves, height);
    AddDeltas(holder, pool, p, pay0, pay1, minted);
    RunEffect(d, moves, height, p.tick0, Reserves(pool));
    RunEffect(d, moves, height, p.tick1, Reserves(pool));
    RunEffect(d, moves, height, LpTick(pool), Reserves(pool));
    var f := Run(d, moves + [Refresh(pool)], height).value;
    AddStep(ShapeOf(p), a0, a1, ShapeOf(f.pools[pool]));
    AtLeastMini(p);
    SoundStep(ShapeOf(p), ShapeOf(f.pools[pool]));
    RefreshedRow(f, pool, p.tick0, p.tick1);
  }

  lemma AtLeastMini(p: Pool)
    requires Sound(ShapeOf(p))
    ensures p.total >= MINI_LIQUIDITY
  {}

  lemma AddSafe(d: Database, holder: Signer, pool: PoolId, amt0: int, amt1: int, min0: int, min1: int, height: nat)
    requires Safe(d) && AddScript(d, holder, pool, amt0, amt1, min0, min1).Ok?
    requires Run(d, AddScript(d, holder, pool, amt0, amt1, min0, min1).value, height).Ok?
    ensures Keeps(d, Run(d, AddScript(d, holder, pool, amt0, amt1, min0, min1).value, height).value, true)
    ensures PoolAgrees(Run(d, AddScript(d, holder, pool, amt0, amt1, min0, min1).value, height).value, pool)
  {
    hide Run, PoolInv, PoolAgrees, Minted, AddAmounts;
    var p := d.pools[pool];
    var v := AddAmounts(amt0, amt1, min0, min1, p.amt0, p.amt1).value;
    SettledWithin(amt0, amt1, min0, min1, p.amt0, p.amt1);
    var pay0, pay1 := if pool.V1? then v.0 else amt0, if pool.V1? then v.1 else amt1;
    var moves := AddMoves(holder, pool, p, pay0, pay1, Minted(v.0, v.1, p.amt0, p.amt1, p.total));
    var script := AddScript(d, holder, pool, amt0, amt1, min0, min1).value;
    assert script == moves + [Refresh(pool)];
    AddCore(d, holder, pool, v.0, v.1, pay0, pay1, height);
    LocalSafe(d, script, height, pool);
  }

  // ---------------------------------------------------------------------------------------------------------------
  // Remove
  // ---------------------------------------------------------------------------------------------------------------

  function RemoveMoves(holder: Signer, pool: PoolId, p: Pool, out0: nat, out1: nat, l: nat): seq<Step> {
    [Move(p.tick0, Reserves(pool), holder, out0),
     Move(p.tick1, Reserves(pool), holder, out1),
     BurnFrom(LpTick(pool), holder, l)]
  }

  lemma RemoveDeltas(holder: Signer, pool: PoolId, p: Pool, out0: nat, out1: nat, l: nat)
    requires p.tick0 != p.tick1 && p.tick0 != LpTick(pool) && p.tick1 != LpTick(pool)
    ensures var moves := RemoveMoves(holder, pool, p, out0, out1, l);
            && Total(moves, p.tick0, Reserves(pool)) == 0 - out0
            && Total(moves, p.tick1, Reserves(pool)) == 0 - out1
            && Total(moves, LpTick(pool), Reserves(pool)) == 0
            && SupplyTotal(moves, LpTick(pool)) == 0 - l
  {
    var m := RemoveMoves(holder, pool, p, out0, out1, l);
    Total3(m[0], m[1], m[2], p.tick0, Reserves(pool));
    Total3(m[0], m[1], m[2], p.tick1, Reserves(pool));
    Total3(m[0], m[1], m[2], LpTick(pool), Reserves(pool));
  }

  /** The minimum liquidity at the reserves address can never be redeemed. */
  lemma RemoveCore(d: Database, holder: Signer, pool: PoolId, l: nat, height: nat)
    requires ConservedAll(d) && pool in d.pools && PoolInv(d, pool) && 0 < l <= d.pools[pool].total
    requires var p := d.pools[pool];
             Run(d, RemoveMoves(holder, pool, p, Redeemed(l, p.amt0, p.total), Redeemed(l, p.amt1, p.total), l)
                    + [Refresh(pool)], height).Ok?
    ensures var p := d.pools[pool];
            var f := Run(d, RemoveMoves(holder, pool, p, Redeemed(l, p.amt0, p.total), Redeemed(l, p.amt1, p.total), l)
                            + [Refresh(pool)], height).value;
            PoolInv(f, pool) && PoolAgrees(f, pool) && Kept(d, f, pool)
  {
    hide Apply, Run, Total, SupplyTotal, Redeemed, NoDilution, Sound, PoolAgrees, ConservedAll;
    var p := d.pools[pool];
    var out0, out1 := Redeemed(l, p.amt0, p.total), Redeemed(l, p.amt1, p.total);
    var moves := RemoveMoves(holder, pool, p, out0, out1, l);
    Settled(d, moves, pool, height);
    LedgerlyRun(d, moves, height);
    RunConserves(d, moves, height);
    RemoveDeltas(holder, pool, p, out0, out1, l);
    RunEffect(d, moves, height, p.tick0, Reserves(pool));
    RunEffect(d, moves, height, p.tick1, Reserves(pool));
    RunEffect(d, moves, height, LpTick(pool), Reserves(pool));
    OneHolder(Run(d, moves, height).value, LpTick(pool), Reserves(pool));
    var f := Run(d, moves + [Refresh(pool)], height).value;
    RemoveStep(ShapeOf(p), l, ShapeOf(f.pools[pool]));
    SoundStep(ShapeOf(p), ShapeOf(f.pools[pool]));
    RefreshedRow(f, pool, p.tick0, p.tick1);
  }

  lemma RemoveSafe(d: Database, holder: Signer, pool: PoolId, l: int, height: nat)
    requires Safe(d) && RemovePlan(d, holder, pool, l).Ok?
    requires Run(d, RemovePlan(d, holder, pool, l).value.script, height).Ok?
    ensures Keeps(d, Run(d, RemovePlan(d, holder, pool, l).value.script, height).value, true)
    ensures PoolAgrees(Run(d, RemovePlan(d, holder, pool, l).value.script, height).value, pool)
  {
    hide Run, PoolInv, PoolAgrees, Redeemed;
    var p := d.pools[pool];
    var moves := RemoveMoves(holder, pool, p, Redeemed(l, p.amt0, p.total), Redeemed(l, p.amt1, p.total), l);
    var script := RemovePlan(d, holder, pool, l).value.script;
    assert script == moves + [Refresh(pool)];
    RemoveCore(d, holder, pool, l, height);
    LocalSafe(d, script, height, pool);
  }

  // ---------------------------------------------------------------------------------------------------------------
  // Swap
  // ---------------------------------------------------------------------------------------------------------------

  function ExecMoves(holder: Signer, pool: PoolId, tickIn: Tick, tickOut: Tick, amt: nat, out: nat): seq<Step> {
    [Move(tickIn, holder, Reserves(pool), amt),
     Move(tickOut, Reserves(pool), holder, out)]
  }

  lemma ExecDeltas(holder: Signer, pool: PoolId, tickIn: Tick, tickOut: Tick, amt: nat, out: nat)
    requires tickIn != tickOut && tickIn != LpTick(pool) && tickOut != LpTick(pool)
    ensures var moves := ExecMoves(holder, pool, tickIn, tickOut, amt, out);
            && Total(moves, tickIn, Reserves(pool)) == amt
            && Total(moves, tickOut, Reserves(pool)) == 0 - out
            && Total(moves, LpTick(pool), Reserves(pool)) == 0
            && SupplyTotal(moves, LpTick(pool)) == 0
  {
    var m := ExecMoves(holder, pool, tickIn, tickOut, amt, out);
    Total2(m[0], m[1], tickIn, Reserves(pool));
    Total2(m[0], m[1], tickOut, Reserves(pool));
    Total2(m[0], m[1], LpTick(pool), Reserves(pool));
  }

  /** What a swap of `amt` for the pool's `zero`th token moves out. */
  function ExecOut(p: Pool, zero: bool, amt: nat): nat
    requires amt >= 1
  {
    Out(AfterFee(amt), if zero then p.amt0 else p.amt1, if zero then p.amt1 else p.amt0)
  }

  lemma FeeIsPart(amt: nat)
    ensures AfterFee(amt) <= amt
    ensures amt > 0 ==> AfterFee(amt) > 0
  {}

  lemma ExecShape(p: Pool, zero: bool, amt: nat, q: Pool)
    requires Sound(ShapeOf(p)) && amt >= 1 && q.total == p.total
    requires zero ==> q.amt0 >= p.amt0 + amt && q.amt1 >= p.amt1 - ExecOut(p, zero, amt)
    requires !zero ==> q.amt1 >= p.amt1 + amt && q.amt0 >= p.amt0 - ExecOut(p, zero, amt)
    ensures NoDilution(ShapeOf(p), ShapeOf(q)) && Sound(ShapeOf(q))
  {
    hide Out, AfterFee;
    FeeIsPart(amt);
    var x := AfterFee(amt);
    if zero {
      SwapStep(x, p.amt0, p.amt1, q.amt0, q.amt1);
    } else {
      SwapStep(x, p.amt1, p.amt0, q.amt1, q.amt0);
    }
    SameTotal(ShapeOf(p), ShapeOf(q));
    SoundStep(ShapeOf(p), ShapeOf(q));
  }

  lemma ExecCore(d: Database, holder: Signer, pool: PoolId, zero: bool, amt: nat, height: nat)
    requires pool in d.pools && PoolInv(d, pool) && amt >= 1
    requires var p := d.pools[pool];
             Run(d, ExecMoves(holder, pool, if zero then p.tick0 else p.tick1, if zero then p.tick1 else p.tick0, amt,
                              ExecOut(p, zero, amt)) + [Refresh(pool)], height).Ok?
    ensures var p := d.pools[pool];
            var f := Run(d, ExecMoves(holder, pool, if zero then p.tick0 else p.tick1,
                                      if zero then p.tick1 else p.tick0, amt, ExecOut(p, zero, amt)) + [Refresh(pool)],
                         height).value;
            PoolInv(f, pool) && PoolAgrees(f, pool) && Kept(d, f, pool)
  {
    hide Apply, Run, Total, SupplyTotal, ExecOut, NoDilution, Sound, PoolAgrees;
    var p := d.pools[pool];
    var out := ExecOut(p, zero, amt);
    var tickIn, tickOut := if zero then p.tick0 else p.tick1, if zero then p.tick1 else p.tick0;
    var moves := ExecMoves(holder, pool, tickIn, tickOut, amt, out);
    Settled(d, moves, pool, height);
    LedgerlyRun(d, moves, height);
    ExecDeltas(holder, pool, tickIn, tickOut, amt, out);
    RunEffect(d, moves, height, p.tick0, Reserves(pool));
    RunEffect(d, moves, height, p.tick1, Reserves(pool));
    RunEffect(d, moves, height, LpTick(pool), Reserves(pool));
    var f := Run(d, moves + [Refresh(pool)], height).value;
    ExecShape(p, zero, amt, f.pools[pool]);
    RefreshedRow(f, pool, p.tick0, p.tick1);
  }

  lemma MarkKeeps(d: Database, hash: string, height: nat)
    requires Run(d, [MarkTraded(hash)], height).Ok?
    ensures Safe(d) ==> Safe(Run(d, [MarkTraded(hash)], height).value)
    ensures Agreed(d) ==> Agreed(Run(d, [MarkTraded(hash)], height).value)
    ensures forall id :: PoolAgrees(d, id) ==> PoolAgrees(Run(d, [MarkTraded(hash)], height).value, id)
    ensures Run(d, [MarkTraded(hash)], height).value.pools == d.pools
  {
    hide Conserved, PoolInv, PoolAgrees;
    var d' := Run(d, [MarkTraded(hash)], height).value;
    assert d' == d.(infos := d'.infos);
    forall id
      ensures PoolInv(d, id) ==> PoolInv(d', id)
      ensures PoolAgrees(d, id) ==> PoolAgrees(d', id)
    {
      SamePool(d, d', id);
    }
  }

  lemma SamePool(d: Database, d': Database, id: PoolId)
    requires d' == d.(infos := d'.infos)
    ensures PoolInv(d, id) ==> PoolInv(d', id)
    ensures PoolAgrees(d, id) ==> PoolAgrees(d', id)
  {}

  lemma ExecSafe(d: Database, hash: string, holder: Signer, pool: PoolId, input: Tick, amt: int, minOut: int, height: nat)
    requires Safe(d) && ExecPlan(d, hash, holder, pool, input, amt, minOut, height).Ok?
    requires Run(d, ExecPlan(d, hash, holder, pool, input, amt, minOut, height).value.script, height).Ok?
    ensures Keeps(d, Run(d, ExecPlan(d, hash, holder, pool, input, amt, minOut, height).value.script, height).value, true)
    ensures PoolAgrees(Run(d, ExecPlan(d, hash, holder, pool, input, amt, minOut, height).value.script, height).value, pool)
  {
    hide Run, PoolInv, PoolAgrees, Out, AfterFee, Safe, Agreed, TradedAlready;
    assert PoolInv(d, pool) by { PoolOfSafe(d, pool); }
    var p := d.pools[pool];
    var zero := input == p.tick0;
    var moves := ExecMoves(holder, pool, input, if zero then p.tick1 else p.tick0, amt, ExecOut(p, zero, amt));
    var script := ExecPlan(d, hash, holder, pool, input, amt, minOut, height).value.script;
    var mark := if pool.V2? then [MarkTraded(hash)] else [];
    assert script == (moves + [Refresh(pool)]) + mark;
    RunAppend(d, moves + [Refresh(pool)], mark, height);
    ExecCore(d, holder, pool, zero, amt, height);
    LocalSafe(d, moves + [Refresh(pool)], height, pool);
    RunNothing(Run(d, moves + [Refresh(pool)], height).value, height);
    if pool.V2? {
      MarkKeeps(Run(d, moves + [Refresh(pool)], height).value, hash, height);
    }
  }

  lemma RunNothing(d: Database, height: nat)
    ensures Run(d, [], height) == Ok(d)
  {}

  lemma PoolOfSafe(d: Database, id: PoolId)
    requires Safe(d)
    ensures PoolInv(d, id)
  {}

  // ---------------------------------------------------------------------------------------------------------------
  // Whole transactions
  // ---------------------------------------------------------------------------------------------------------------

  /** Any order that goes through, v1 or v2, keeps every pool sound and dilutes no pool; and right after it the cache of
      its own pair equals the ledger, whatever had been sent to the reserves address before. */
  lemma OrderSafe(d: Database, hash: string, holder: Signer, o: PairOrder, height: nat)
    requires Safe(d) && RunOrder(d, hash, holder, o, height).Ok?
    ensures Keeps(d, RunOrder(d, hash, holder, o, height).value.0, true)
    ensures PoolAgrees(RunOrder(d, hash, holder, o, height).value.0, o.order.pool)
  {
    hide Run, Safe, Keeps, PoolAgrees, CreateScript, AddScript, RemovePlan, ExecPlan;
    match o.order
    case Create(pool, tick0, tick1, amt0, amt1) => CreateSafe(d, holder, pool, tick0, tick1, amt0, amt1, height);
    case Add(pool, amt0, amt1, min0, min1) => AddSafe(d, holder, pool, amt0, amt1, min0, min1, height);
    case Remove(pool, l) => RemoveSafe(d, holder, pool, l, height);
    case Exec(pool, input, amt, minOut) => ExecSafe(d, hash, holder, pool, input, amt, minOut, height);
  }

  lemma KeptTrans(a: Database, b: Database, c: Database, id: PoolId)
    requires id in a.pools && PoolInv(b, id) && Kept(a, b, id) && Kept(b, c, id)
    ensures Kept(a, c, id)
  {
    NoDilutionTrans(ShapeOf(a.pools[id]), ShapeOf(b.pools[id]), ShapeOf(c.pools[id]));
  }

  lemma KeepsTrans(a: Database, b: Database, c: Database, tidy: bool)
    requires Keeps(a, b, tidy) && Keeps(b, c, tidy)
    ensures Keeps(a, c, tidy)
  {
    hide PoolInv, PoolAgrees, Kept, ConservedAll;
    forall id | id in a.pools
      ensures Kept(a, c, id)
    {
      assert Kept(a, b, id);
      KeptIn(a, b, id);
      KeptTrans(a, b, c, id);
    }
  }

  lemma KeptIn(a: Database, b: Database, id: PoolId)
    requires id in a.pools && Kept(a, b, id)
    ensures id in b.pools
  {}

  lemma KeepsSelf(d: Database, tidy: bool)
    requires Safe(d)
    ensures Keeps(d, d, tidy)
  {
    hide PoolInv, PoolAgrees;
  }

  lemma {:induction false} OrdersSafe(d: Database, hash: string, holder: Signer, os: seq<PairOrder>, height: nat)
    requires Safe(d) && RunOrders(d, hash, holder, os, height).Ok?
    ensures Keeps(d, RunOrders(d, hash, holder, os, height).value.0, true)
    decreases |os|
  {
    hide RunOrder, Safe, Undiluted, Agreed;
    if os == [] {
      KeepsSelf(d, true);
    } else {
      var mid := RunOrder(d, hash, holder, os[0], height).value.0;
      OrderSafe(d, hash, holder, os[0], height);
      OrdersSafe(mid, hash, holder, os[1..], height);
      KeepsTrans(d, mid, RunOrders(d, hash, holder, os, height).value.0, true);
    }
  }
}
