/** Pair orders, v1 and v2: the writes each makes, and the router's deposit and withdrawal around them. */
module Swap {
  import opened Results
  import opened Names
  import opened Db
  import opened Quotes

  /** A decoded order; v1 orders already name their ticks in sorted order. */
  datatype Order =
    | Create(pool: PoolId, tick0: Tick, tick1: Tick, amt0: int, amt1: int)
    | Add(pool: PoolId, amt0: int, amt1: int, min0: int, min1: int)
    | Remove(pool: PoolId, liquidity: int)
    | Exec(pool: PoolId, input: Tick, amt: int, minOut: int)

  /** `doge`: the holder pays in and takes out native coins around the order. */
  datatype PairOrder = PairOrder(order: Order, doge: bool)

  /** What an accepted order writes, and how much WDOGE it hands the holder. */
  datatype Plan = Plan(script: seq<Step>, wdogeOut: nat)

  function WdogePart(tick: Tick, amt: nat): nat {
    if tick == WDOGE then amt else 0
  }

  /** `SwapCreate` / `SwapV2Create` behind their guards. */
  function CreateScript(holder: Party, pool: PoolId, tick0: Tick, tick1: Tick, amt0: int, amt1: int): Result<seq<Step>> {
    if amt0 < 1 || amt1 < 1 || tick0 == tick1 || (pool.V1? && pool != V1(tick0, tick1)) then Failed
    else
      var base := Isqrt(amt0 * amt1);
      if base <= MINI_LIQUIDITY then Failed
      else
        Ok([OpenPool(pool, tick0, tick1),
            Move(tick0, holder, Reserves(pool), amt0),
            Move(tick1, holder, Reserves(pool), amt1),
            MintTo(LpTick(pool), holder, base - MINI_LIQUIDITY),
            MintTo(LpTick(pool), Reserves(pool), MINI_LIQUIDITY),
            Refresh(pool)])
  }

  /** `verifySwapAdd` / `verifySwapV2Add`: besides what the ledger checks again, it looks at the balances of the branch
      that the minimum alone selects, which need not be the branch the add then takes. */
  predicate AddVerified(held0: nat, held1: nat, p: Pool, amt0: int, amt1: int, min0: int, min1: int) {
    && amt0 >= 1 && amt1 >= 1
    && p.amt0 > 0 && p.amt1 > 0
    && var b := amt0 * p.amt1 / p.amt0;
       var a := amt1 * p.amt0 / p.amt1;
       if b < min1 then a >= min0 && a <= held0 && amt1 <= held1
       else amt0 <= held0 && b <= held1
  }

  /** `SwapAdd` moves the settled amounts, `SwapV2Add` the full offered ones; both mint for the settled ones. */
  function AddScript(db: Database, holder: Signer, pool: PoolId, amt0: int, amt1: int, min0: int, min1: int)
    : Result<seq<Step>>
  {
    if pool !in db.pools then Failed
    else if !AddVerified(Bal(db, db.pools[pool].tick0, holder), Bal(db, db.pools[pool].tick1, holder), db.pools[pool],
                         amt0, amt1, min0, min1) then Failed
    else
      var p := db.pools[pool];
      var settled :- AddAmounts(amt0, amt1, min0, min1, p.amt0, p.amt1);
      Ok([Move(p.tick0, holder, Reserves(pool), if pool.V1? then settled.0 else amt0),
          Move(p.tick1, holder, Reserves(pool), if pool.V1? then settled.1 else amt1),
          MintTo(LpTick(pool), holder, Minted(settled.0, settled.1, p.amt0, p.amt1, p.total)),
          Refresh(pool)])
  }

  /** `SwapRemove` / `SwapV2Remove`. */
  function RemovePlan(db: Database, holder: Signer, pool: PoolId, liquidity: int): Result<Plan> {
    if pool !in db.pools || liquidity < 1 || liquidity > db.pools[pool].total then Failed
    else
      var p := db.pools[pool];
      var out0, out1 := Redeemed(liquidity, p.amt0, p.total), Redeemed(liquidity, p.amt1, p.total);
      if p.amt0 < out0 || p.amt1 < out1 then Failed
      else
        Ok(Plan([Move(p.tick0, Reserves(pool), holder, out0),
                 Move(p.tick1, Reserves(pool), holder, out1),
                 BurnFrom(LpTick(pool), holder, liquidity),
                 Refresh(pool)],
                WdogePart(p.tick0, out0) + WdogePart(p.tick1, out1)))
  }

  /** Somebody already completed a v2 swap (a pump trade) at this height. */
  predicate TradedAlready(db: Database, protocol: Protocol, holder: Signer, height: nat) {
    exists k <- db.infos :: db.infos[k] == Info(protocol, height, holder, true)
  }

  /** `SwapExec` / `SwapV2Exec`. */
  function ExecPlan(db: Database, hash: string, holder: Signer, pool: PoolId, input: Tick, amt: int, minOut: int,
                    height: nat): Result<Plan> {
    if pool !in db.pools || amt < 1 || (pool.V1? && minOut < 0) then Failed
    else
      var p := db.pools[pool];
      if input != p.tick0 && input != p.tick1 then Failed
      else if pool.V2? && TradedAlready(db, PairV2, holder, height) then Failed
      else
        var zero := input == p.tick0;
        var tickOut := if zero then p.tick1 else p.tick0;
        var out := Out(AfterFee(amt), if zero then p.amt0 else p.amt1, if zero then p.amt1 else p.amt0);
        if out < minOut then Failed
        else
          Ok(Plan([Move(input, holder, Reserves(pool), amt),
                   Move(tickOut, Reserves(pool), holder, out),
                   Refresh(pool)] + if pool.V2? then [MarkTraded(hash)] else [],
                  WdogePart(tickOut, out)))
  }

  function OrderPlan(db: Database, hash: string, holder: Signer, o: Order, height: nat): Result<Plan> {
    match o
    case Create(pool, tick0, tick1, amt0, amt1) =>
      var script :- CreateScript(holder, pool, tick0, tick1, amt0, amt1);
      Ok(Plan(script, 0))
    case Add(pool, amt0, amt1, min0, min1) =>
      var script :- AddScript(db, holder, pool, amt0, amt1, min0, min1);
      Ok(Plan(script, 0))
    case Remove(pool, liquidity) => RemovePlan(db, holder, pool, liquidity)
    case Exec(pool, input, amt, minOut) => ExecPlan(db, hash, holder, pool, input, amt, minOut, height)
  }

  function RunOrder(db: Database, hash: string, holder: Signer, o: PairOrder, height: nat): Result<(Database, nat)> {
    var plan :- OrderPlan(db, hash, holder, o.order, height);
    var next :- Run(db, plan.script, height);
    Ok((next, if o.doge then plan.wdogeOut else 0))
  }

  /** The orders of one transaction, in one database transaction, and the WDOGE they owe in total. */
  function RunOrders(db: Database, hash: string, holder: Signer, os: seq<PairOrder>, height: nat): Result<(Database, nat)>
    decreases |os|
  {
    if os == [] then Ok((db, 0))
    else
      var first :- RunOrder(db, hash, holder, os[0], height);
      var rest :- RunOrders(first.0, hash, holder, os[1..], height);
      Ok((rest.0, first.1 + rest.1))
  }

  /** What one order makes the router deposit. A v2 create or add is looked up by its pair first, so a create, whose
      pair cannot exist yet, fails here. */
  function DepositFor(pools: map<PoolId, Pool>, o: PairOrder): Result<int> {
    if !o.doge then Ok(0)
    else
      match o.order
      case Create(pool, tick0, tick1, amt0, amt1) =>
        if pool.V1? then Ok(WdogeSide(tick0, amt0) + WdogeSide(tick1, amt1))
        else if pool !in pools then Failed
        else Ok(WdogeSide(pools[pool].tick0, amt0) + WdogeSide(pools[pool].tick1, amt1))
      case Add(pool, amt0, amt1, _, _) =>
        if pool.V1? then Ok(WdogeSide(pool.tick0, amt0) + WdogeSide(pool.tick1, amt1))
        else if pool !in pools then Failed
        else Ok(WdogeSide(pools[pool].tick0, amt0) + WdogeSide(pools[pool].tick1, amt1))
      case Remove(_, _) => Ok(0)
      case Exec(_, input, amt, _) => Ok(WdogeSide(input, amt))
  }

  function WdogeSide(tick: Tick, amt: int): int {
    if tick == WDOGE then amt else 0
  }

  function Deposits(pools: map<PoolId, Pool>, os: seq<PairOrder>): Result<int>
    decreases |os|
  {
    if os == [] then Ok(0)
    else
      var first :- DepositFor(pools, os[0]);
      var rest :- Deposits(pools, os[1..]);
      Ok(first + rest)
  }

  /** A deposit or withdrawal of the router: nothing at all when the amount is not positive. */
  function PayIn(db: Database, holder: Signer, amt: int, height: nat): Result<Database> {
    if amt > 0 then Run(db, [MintTo(WDOGE, holder, amt)], height) else Ok(db)
  }

  function PayOut(db: Database, holder: Signer, amt: nat, height: nat): Result<Database> {
    if amt > 0 then Run(db, [BurnFrom(WDOGE, holder, amt)], height) else Ok(db)
  }

  /** The part of `executePairV1` / `executePairV2` that is rolled back as one. */
  function OrdersAndPayOut(db: Database, hash: string, holder: Signer, os: seq<PairOrder>, height: nat): Result<Database> {
    var done :- RunOrders(db, hash, holder, os, height);
    PayOut(done.0, holder, done.1, height)
  }

  /** `executePairV1` / `executePairV2`: the deposit is committed first and stays when the orders fail. */
  function PairTx(db: Database, hash: string, holder: Signer, os: seq<PairOrder>, height: nat): Database {
    match Deposits(db.pools, os)
    case Failed => db
    case Ok(amt) =>
      match PayIn(db, holder, amt, height)
      case Failed => db
      case Ok(funded) =>
        match OrdersAndPayOut(funded, hash, holder, os, height)
        case Failed => funded
        case Ok(done) => done
  }
}
