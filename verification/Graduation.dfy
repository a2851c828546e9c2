/** The end of a curve: graduation into a v2 pool always succeeds and conserves. */
module Graduation {
  import opened Results
  import opened Names
  import opened Db
  import opened Quotes
  import opened Swap
  import opened Pump
  import opened Effects
  import opened PoolSafety
  import opened OrderSafety
  import opened PumpSafety

  lemma CreateNeeds(d: Database, holder: Party, pool: PoolId, tick0: Tick, tick1: Tick, amt0: int, amt1: int, height: nat)
    requires CreateScript(holder, pool, tick0, tick1, amt0, amt1).Ok?
    requires Run(d, CreateScript(holder, pool, tick0, tick1, amt0, amt1).value, height).Ok?
    ensures pool !in d.pools && LpTick(pool) !in BookOf(d, LpTick(pool)).tokens && holder != Reserves(pool)
    ensures amt0 <= Bal(d, tick0, holder) && amt1 <= Bal(d, tick1, holder)
  {
    hide Apply, Delta, SupplyDelta;
    CreateIsFresh(d, holder, pool, tick0, tick1, amt0, amt1, height);
    var script := CreateScript(holder, pool, tick0, tick1, amt0, amt1).value;
    RunFirst(d, script[0], script[1..], height);
    assert script == [script[0]] + script[1..];
    var d1 := Apply(d, script[0], height).value;
    RunFirst(d1, script[1], script[2..], height);
    assert script[1..] == [script[1]] + script[2..];
    OpenedPool(d, pool, tick0, tick1, height, tick0, holder);
    OpenedPool(d, pool, tick0, tick1, height, tick1, holder);
    MoveGoes(d1, tick0, holder, Reserves(pool), amt0, height);
    var d2 := Apply(d1, script[1], height).value;
    RunFirst(d2, script[2], script[3..], height);
    assert script[2..] == [script[2]] + script[3..];
    MoveGoes(d2, tick1, holder, Reserves(pool), amt1, height);
    StepEffect(d1, script[1], height, tick1, holder);
    OtherTick(script[1], tick1, holder);
  }

  lemma CreateGoes(d: Database, holder: Party, pool: PoolId, tick0: Tick, tick1: Tick, amt0: int, amt1: int, height: nat)
    requires CreateScript(holder, pool, tick0, tick1, amt0, amt1).Ok?
    requires pool !in d.pools && LpTick(pool) !in BookOf(d, LpTick(pool)).tokens && holder != Reserves(pool)
    requires amt0 <= Bal(d, tick0, holder) && amt1 <= Bal(d, tick1, holder)
    ensures Run(d, CreateScript(holder, pool, tick0, tick1, amt0, amt1).value, height).Ok?
  {
    hide Delta, SupplyDelta, Apply, Isqrt;
    var moves := CreateMoves(holder, pool, tick0, tick1, amt0, amt1);
    var script := CreateScript(holder, pool, tick0, tick1, amt0, amt1).value;
    assert script == [script[0]] + [moves[0]] + [moves[1]] + [moves[2]] + [moves[3]] + [Refresh(pool)];
    OpenGoes(d, pool, tick0, tick1, height);
    var d1 := Apply(d, script[0], height).value;
    OpenedPool(d, pool, tick0, tick1, height, tick0, holder);
    OpenedPool(d, pool, tick0, tick1, height, tick1, holder);
    MoveGoes(d1, tick0, holder, Reserves(pool), amt0, height);
    var d2 := Apply(d1, moves[0], height).value;
    StepEffect(d1, moves[0], height, tick1, holder);
    OtherTick(moves[0], tick1, holder);
    LedgerlyStep(d1, moves[0], height);
    MoveGoes(d2, tick1, holder, Reserves(pool), amt1, height);
    var d3 := Apply(d2, moves[1], height).value;
    LedgerlyStep(d2, moves[1], height);
    MintGoes(d3, LpTick(pool), holder, Isqrt(amt0 * amt1) - MINI_LIQUIDITY, height);
    var d4 := Apply(d3, moves[2], height).value;
    LedgerlyStep(d3, moves[2], height);
    MintGoes(d4, LpTick(pool), Reserves(pool), MINI_LIQUIDITY, height);
    var d5 := Apply(d4, moves[3], height).value;
    LedgerlyStep(d4, moves[3], height);
    RefreshGoes(d5, pool, height);
    RunSix(d, script, d1, d2, d3, d4, d5, height);
  }

  lemma OpenGoes(d: Database, pool: PoolId, tick0: Tick, tick1: Tick, height: nat)
    ensures Apply(d, OpenPool(pool, tick0, tick1), height).Ok? <==>
            pool !in d.pools && LpTick(pool) !in BookOf(d, LpTick(pool)).tokens
  {}

  lemma MintGoes(d: Database, tick: Tick, to: Party, units: nat, height: nat)
    ensures Apply(d, MintTo(tick, to, units), height).Ok? <==> tick in BookOf(d, tick).tokens
  {}

  lemma RefreshGoes(d: Database, pool: PoolId, height: nat)
    ensures Apply(d, Refresh(pool), height).Ok? <==> pool in d.pools
  {}

  lemma RunSix(d: Database, script: seq<Step>, d1: Database, d2: Database, d3: Database, d4: Database, d5: Database,
               height: nat)
    requires |script| == 6
    requires Apply(d, script[0], height) == Ok(d1) && Apply(d1, script[1], height) == Ok(d2)
    requires Apply(d2, script[2], height) == Ok(d3) && Apply(d3, script[3], height) == Ok(d4)
    requires Apply(d4, script[4], height) == Ok(d5) && Apply(d5, script[5], height).Ok?
    ensures Run(d, script, height) == Apply(d5, script[5], height)
  {
    hide Apply;
    assert Run(d5, script[5..], height) == Apply(d5, script[5], height);
    assert script[4..][1..] == script[5..] && script[3..][1..] == script[4..];
    assert Run(d3, script[3..], height) == Run(d5, script[5..], height);
    assert script[2..][1..] == script[3..] && script[1..][1..] == script[2..];
    assert Run(d1, script[1..], height) == Run(d3, script[3..], height);
  }

  /** Creating a pool succeeds exactly when its name and its liquidity token are new and the creator can pay. */
  lemma CreateIff(d: Database, holder: Party, pool: PoolId, tick0: Tick, tick1: Tick, amt0: int, amt1: int, height: nat)
    requires CreateScript(holder, pool, tick0, tick1, amt0, amt1).Ok?
    ensures Run(d, CreateScript(holder, pool, tick0, tick1, amt0, amt1).value, height).Ok? <==>
            && pool !in d.pools && LpTick(pool) !in BookOf(d, LpTick(pool)).tokens && holder != Reserves(pool)
            && amt0 <= Bal(d, tick0, holder) && amt1 <= Bal(d, tick1, holder)
  {
    hide Run, CreateScript;
    if Run(d, CreateScript(holder, pool, tick0, tick1, amt0, amt1).value, height).Ok? {
      CreateNeeds(d, holder, pool, tick0, tick1, amt0, amt1, height);
    } else if pool !in d.pools && LpTick(pool) !in BookOf(d, LpTick(pool)).tokens && holder != Reserves(pool)
              && amt0 <= Bal(d, tick0, holder) && amt1 <= Bal(d, tick1, holder) {
      CreateGoes(d, holder, pool, tick0, tick1, amt0, amt1, height);
    }
  }

  /** What a create takes from its creator. */
  lemma CreatePaid(d: Database, holder: Party, pool: PoolId, tick0: Tick, tick1: Tick, amt0: int, amt1: int, height: nat,
                   t: Tick)
    requires CreateScript(holder, pool, tick0, tick1, amt0, amt1).Ok?
    requires Run(d, CreateScript(holder, pool, tick0, tick1, amt0, amt1).value, height).Ok?
    requires t == tick0 || t == tick1
    ensures var f := Run(d, CreateScript(holder, pool, tick0, tick1, amt0, amt1).value, height).value;
            && Bal(f, t, holder) == Bal(d, t, holder) - (if t == tick0 then amt0 else amt1)
            && Issued(f, t) == Issued(d, t)
            && f.curves == d.curves
  {
    hide Apply, Total, SupplyTotal, Isqrt;
    var script := CreateScript(holder, pool, tick0, tick1, amt0, amt1).value;
    var moves := CreateMoves(holder, pool, tick0, tick1, amt0, amt1);
    assert script == [OpenPool(pool, tick0, tick1)] + (moves + [Refresh(pool)]);
    RunFirst(d, script[0], moves + [Refresh(pool)], height);
    var d1 := Apply(d, script[0], height).value;
    OpenedPool(d, pool, tick0, tick1, height, t, holder);
    StepEffect(d, script[0], height, t, holder);
    OpenKeepsCurves(d, pool, tick0, tick1, height);
    Settled(d1, moves, pool, height);
    PaidInOther(d1, holder, pool, tick0, tick1, amt0, amt1, height);
    LedgerlyRun(d1, moves, height);
    RunEffect(d1, moves, height, t, holder);
    Total4(moves[0], moves[1], moves[2], moves[3], t, holder);
    RunAppend(d1, moves, [Refresh(pool)], height);
    RefreshKeepsCurves(Run(d1, moves, height).value, pool, height);
  }

  lemma OpenKeepsCurves(d: Database, pool: PoolId, tick0: Tick, tick1: Tick, height: nat)
    requires Apply(d, OpenPool(pool, tick0, tick1), height).Ok?
    ensures Apply(d, OpenPool(pool, tick0, tick1), height).value.curves == d.curves
    ensures SupplyDelta(OpenPool(pool, tick0, tick1), WDOGE) == 0
  {}

  lemma RefreshKeepsCurves(d: Database, pool: PoolId, height: nat)
    requires Run(d, [Refresh(pool)], height).Ok?
    ensures Run(d, [Refresh(pool)], height).value.curves == d.curves
  {}

  lemma BigEnough(a0: nat, a1: nat)
    requires a0 >= 1 && a1 >= 1002001
    ensures Isqrt(a0 * a1) > MINI_LIQUIDITY
  {
    ProductMono(1, a0, 1002001, a1);
    var r := Isqrt(a0 * a1);
    if r <= 1000 {
      ProductMono(r + 1, 1001, r + 1, 1001);
    }
  }

  /** Graduation always succeeds, and conserves: only the two fees are burned, nothing stays at the curve's address, and
      everything that was there is in the new pool. */
  lemma GraduationSucceeds(d: Database, hash: string, id: string, creator: Signer, height: nat)
    requires ConservedAll(d) && Bal(d, WDOGE, PumpReserves(id)) >= DOGE_MAX && Bal(d, Meme(id), PumpReserves(id)) >= 1
    requires V2(hash) !in d.pools && Meme(hash) !in d.meme20.tokens
    ensures Finish(d, hash, id, creator, height).Ok?
    ensures var f := Finish(d, hash, id, creator, height).value;
            var fees := PUMP_FINISH_FEE + PUMP_CREATE_HOLDER_FEE;
            && Issued(f, WDOGE) == Issued(d, WDOGE) - fees
            && Issued(f, Meme(id)) == Issued(d, Meme(id))
            && Bal(f, WDOGE, PumpReserves(id)) == 0 && Bal(f, Meme(id), PumpReserves(id)) == 0
            && f.curves == d.curves
            && V2(hash) in f.pools
            && f.pools[V2(hash)].tick0 == Meme(id) && f.pools[V2(hash)].tick1 == WDOGE
            && f.pools[V2(hash)].amt0 == Bal(d, Meme(id), Reserves(V2(hash))) + Bal(d, Meme(id), PumpReserves(id))
            && f.pools[V2(hash)].amt1 == Bal(d, WDOGE, Reserves(V2(hash))) + Bal(d, WDOGE, PumpReserves(id)) - fees
            && PoolInv(f, V2(hash)) && PoolAgrees(f, V2(hash))
  {
    hide Run, ConservedAll, PoolInv, PoolAgrees, Isqrt, FinishFees;
    FeesPaid(d, id, creator, height);
    var paid := Run(d, FinishFees(id, creator), height).value;
    var a0, a1 := Bal(paid, Meme(id), PumpReserves(id)), Bal(paid, WDOGE, PumpReserves(id));
    BigEnough(a0, a1);
    CreateGoes(paid, PumpReserves(id), V2(hash), Meme(id), WDOGE, a0, a1, height);
    CreateCore(paid, PumpReserves(id), V2(hash), Meme(id), WDOGE, a0, a1, height);
    CreatePaid(paid, PumpReserves(id), V2(hash), Meme(id), WDOGE, a0, a1, height, Meme(id));
    CreatePaid(paid, PumpReserves(id), V2(hash), Meme(id), WDOGE, a0, a1, height, WDOGE);
  }
}
