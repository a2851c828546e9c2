/** Whatever a transaction does to the tables is one list of single writes, and each protocol makes only its own. */
module Dispatching {
  import opened Results
  import opened Names
  import opened Db
  import opened Quotes
  import opened Swap
  import opened Pump
  import opened Execute
  import opened Rollback

  /** The writes a protocol may make: who may be debited, and which rows it owns. */
  predicate Permitted(op: Op, s: Step) {
    match s
    case Move(_, from, _, _) =>
      && (from.Reserves? ==> op.PairV1Op? || op.PairV2Op?)
      && (from.PumpReserves? ==> op.PumpOp?)
      && (from.Escrow? ==> op == UnstakeOp(from.stakeId))
    case MintTo(tick, _, _) =>
      && (tick != WDOGE && tick.Drc? ==> op.MintOp? && tick == Drc(op.symbol))
      && (!tick.Drc? ==> op.PairV1Op? || op.PairV2Op? || op.PumpOp?)
    case BurnFrom(tick, from, _) =>
      && from.User?
      && (tick != WDOGE ==> !tick.Drc? && (op.PairV1Op? || op.PairV2Op?))
    case DeployTick(tick, _, _) => op.DeployOp?
    case OpenPool(pool, _, _) => op.PairV1Op? || op.PairV2Op? || op.PumpOp?
    case Refresh(_) => op.PairV1Op? || op.PairV2Op? || op.PumpOp?
    case OpenCurve(_, _, _) => op.PumpOp?
    case SetCurve(_, _, _) => op.PumpOp?
    case OpenStake(_, _, _) => op.StakeOp?
    case CloseStake(id, _) => op == UnstakeOp(id)
    case MarkTraded(_) => op.PairV2Op? || op.PairV1Op? || op.PumpOp?
  }

  ghost predicate AllPermitted(op: Op, script: seq<Step>) {
    forall s <- script :: Permitted(op, s)
  }

  lemma Appended(db: Database, op: Op, a: seq<Step>, mid: Database, b: seq<Step>, height: nat)
    requires Run(db, a, height) == Ok(mid) && AllPermitted(op, a) && AllPermitted(op, b)
    ensures Run(db, a + b, height) == Run(mid, b, height) && AllPermitted(op, a + b)
  {
    RunAppend(db, a, b, height);
  }

  predicate IsPair(op: Op) {
    op.PairV1Op? || op.PairV2Op?
  }

  lemma CreatePermitted(op: Op, holder: Party, pool: PoolId, tick0: Tick, tick1: Tick, amt0: int, amt1: int)
    requires holder.User? || holder.PumpReserves?
    requires IsPair(op) || op.PumpOp?
    requires holder.PumpReserves? ==> op.PumpOp?
    requires CreateScript(holder, pool, tick0, tick1, amt0, amt1).Ok?
    ensures AllPermitted(op, CreateScript(holder, pool, tick0, tick1, amt0, amt1).value)
  {}

  lemma OrderPermitted(db: Database, hash: string, holder: Signer, o: Order, height: nat, op: Op)
    requires IsPair(op) && OrderPlan(db, hash, holder, o, height).Ok?
    ensures AllPermitted(op, OrderPlan(db, hash, holder, o, height).value.script)
  {
    hide Isqrt, Minted, AddAmounts, Redeemed, Out, AfterFee, AddVerified, TradedAlready, CreateScript;
    match o
    case Create(pool, tick0, tick1, amt0, amt1) => CreatePermitted(op, holder, pool, tick0, tick1, amt0, amt1);
    case Add(_, _, _, _, _) =>
    case Remove(_, _) =>
    case Exec(_, _, _, _) =>
  }

  lemma {:induction false} OrdersAreRun(db: Database, hash: string, holder: Signer, os: seq<PairOrder>, height: nat, op: Op)
    returns (script: seq<Step>)
    requires IsPair(op)
    requires RunOrders(db, hash, holder, os, height).Ok?
    ensures Run(db, script, height) == Ok(RunOrders(db, hash, holder, os, height).value.0)
    ensures AllPermitted(op, script)
    decreases |os|
  {
    if os == [] {
      script := [];
    } else {
      var plan := OrderPlan(db, hash, holder, os[0].order, height).value;
      var mid := RunOrder(db, hash, holder, os[0], height).value.0;
      OrderPermitted(db, hash, holder, os[0].order, height, op);
      var rest := OrdersAreRun(mid, hash, holder, os[1..], height, op);
      Appended(db, op, plan.script, mid, rest, height);
      script := plan.script + rest;
    }
  }

  /** The scripts of `PayIn` and `PayOut`, which may be empty. */
  function PayInScript(holder: Signer, amt: int): seq<Step> {
    if amt > 0 then [MintTo(WDOGE, holder, amt)] else []
  }

  function PayOutScript(holder: Signer, amt: nat): seq<Step> {
    if amt > 0 then [BurnFrom(WDOGE, holder, amt)] else []
  }

  lemma PairIsRun(db: Database, hash: string, holder: Signer, os: seq<PairOrder>, height: nat, op: Op)
    returns (script: seq<Step>)
    requires IsPair(op)
    ensures Run(db, script, height) == Ok(PairTx(db, hash, holder, os, height))
    ensures AllPermitted(op, script)
  {
    script := [];
    if Deposits(db.pools, os).Ok? {
      var amt := Deposits(db.pools, os).value;
      if PayIn(db, holder, amt, height).Ok? {
        var funded := PayIn(db, holder, amt, height).value;
        script := PayInScript(holder, amt);
        if OrdersAndPayOut(funded, hash, holder, os, height).Ok? {
          var done := RunOrders(funded, hash, holder, os, height).value;
          var orders := OrdersAreRun(funded, hash, holder, os, height, op);
          Appended(db, op, script, funded, orders, height);
          Appended(db, op, script + orders, done.0, PayOutScript(holder, done.1), height);
          script := script + orders + PayOutScript(holder, done.1);
        }
      }
    }
  }

  function TradeScript(db: Database, trader: Signer, id: string, buy: bool, amt: nat): seq<Step>
    requires amt > 0 && id in db.curves
  {
    if buy then BuyScript(db, trader, id, db.curves[id], amt) else SellScript(db, trader, id, db.curves[id], amt)
  }

  lemma TradePermitted(db: Database, trader: Signer, id: string, buy: bool, amt: nat, op: Op)
    requires op.PumpOp? && amt > 0 && id in db.curves
    ensures AllPermitted(op, TradeScript(db, trader, id, buy, amt))
  {}

  lemma FinishIsRun(db: Database, hash: string, id: string, creator: Signer, height: nat, op: Op)
    returns (script: seq<Step>)
    requires op.PumpOp?
    requires Finish(db, hash, id, creator, height).Ok?
    ensures Run(db, script, height) == Finish(db, hash, id, creator, height)
    ensures AllPermitted(op, script)
  {
    var fees := FinishFees(id, creator);
    var paid := Run(db, fees, height).value;
    var amt0, amt1 := Bal(paid, Meme(id), PumpReserves(id)), Bal(paid, WDOGE, PumpReserves(id));
    var create := CreateScript(PumpReserves(id), V2(hash), Meme(id), WDOGE, amt0, amt1).value;
    CreatePermitted(op, PumpReserves(id), V2(hash), Meme(id), WDOGE, amt0, amt1);
    hide Apply, Run;
    Appended(db, op, fees, paid, create, height);
    script := fees + create;
  }

  lemma TradeIsRun(db: Database, hash: string, trader: Signer, id: string, buy: bool, amt: nat, height: nat, op: Op)
    returns (script: seq<Step>)
    requires op.PumpOp? && amt > 0
    requires TradeCurve(db, hash, trader, id, buy, amt, height).Ok?
    ensures Run(db, script, height) == TradeCurve(db, hash, trader, id, buy, amt, height)
    ensures AllPermitted(op, script)
  {
    hide Apply, Run, Finish, AllPermitted;
    script := TradeScript(db, trader, id, buy, amt);
    TradePermitted(db, trader, id, buy, amt, op);
    var traded := Run(db, script, height).value;
    if Bal(traded, WDOGE, PumpReserves(id)) >= DOGE_MAX {
      var finish := FinishIsRun(traded, hash, id, db.curves[id].creator, height, op);
      Appended(db, op, script, traded, finish, height);
      script := script + finish;
    }
  }

  lemma TradeOrderIsRun(db: Database, hash: string, trader: Signer, id: string, input: Tick, amt: int, doge: bool,
                        height: nat, op: Op)
    returns (script: seq<Step>)
    requires op.PumpOp?
    requires TradeOrder(db, hash, trader, id, input, amt, doge, height).Ok?
    ensures Run(db, script, height) == TradeOrder(db, hash, trader, id, input, amt, doge, height)
    ensures AllPermitted(op, script)
  {
    hide TradeCurve, Apply;
    var traded := TradeCurve(db, hash, trader, id, input == WDOGE, amt, height).value;
    var marked := Run(traded, [MarkTraded(hash)], height).value;
    var out := if doge && input != WDOGE then SaleProceeds(db.curves[id], amt) else 0;
    var trade := TradeIsRun(db, hash, trader, id, input == WDOGE, amt, height, op);
    Appended(db, op, trade, traded, [MarkTraded(hash)], height);
    Appended(db, op, trade + [MarkTraded(hash)], marked, PayOutScript(trader, out), height);
    script := trade + [MarkTraded(hash)] + PayOutScript(trader, out);
  }

  lemma DeployOrderIsRun(db: Database, hash: string, creator: Signer, reserve: int, firstBuy: int, height: nat, op: Op)
    returns (script: seq<Step>)
    requires op.PumpOp?
    requires DeployOrder(db, hash, creator, reserve, firstBuy, height).Ok?
    ensures Run(db, script, height) == DeployOrder(db, hash, creator, reserve, firstBuy, height)
    ensures AllPermitted(op, script)
  {
    hide TradeCurve, Apply;
    script := [OpenCurve(hash, creator, reserve)];
    if firstBuy > 0 {
      var started := Run(db, script, height).value;
      var trade := TradeIsRun(started, hash, creator, hash, true, firstBuy, height, op);
      Appended(db, op, script, started, trade, height);
      script := script + trade;
    }
  }

  lemma PumpIsRun(db: Database, hash: string, holder: Signer, o: PumpOrder, height: nat, op: Op)
    returns (script: seq<Step>)
    requires op.PumpOp?
    ensures Run(db, script, height) == Ok(PumpTx(db, hash, holder, o, height))
    ensures AllPermitted(op, script)
  {
    hide TradeOrder, DeployOrder, Apply;
    script := [];
    if PayIn(db, holder, PumpDeposit(o), height).Ok? {
      var funded := PayIn(db, holder, PumpDeposit(o), height).value;
      script := PayInScript(holder, PumpDeposit(o));
      var rest: seq<Step> := [];
      match o {
        case Deploy(reserve, firstBuy, _) =>
          if DeployOrder(funded, hash, holder, reserve, firstBuy, height).Ok? {
            rest := DeployOrderIsRun(funded, hash, holder, reserve, firstBuy, height, op);
          }
        case Trade(id, input, amt, doge) =>
          if TradeOrder(funded, hash, holder, id, input, amt, doge, height).Ok? {
            rest := TradeOrderIsRun(funded, hash, holder, id, input, amt, doge, height, op);
          }
      }
      Appended(db, op, script, funded, rest, height);
      script := script + rest;
    }
  }

  /** Every dispatched operation is one run of permitted writes. */
  lemma DispatchIsRun(db: Database, tx: Tx, height: nat) returns (script: seq<Step>)
    ensures Run(db, script, height) == Ok(Dispatch(db, tx, height))
    ensures AllPermitted(tx.op, script)
  {
    hide PairTx, PumpTx, Apply;
    match tx.op {
      case PairV1Op(orders) => script := PairIsRun(db, tx.hash, tx.holder, orders, height, tx.op);
      case PairV2Op(orders) => script := PairIsRun(db, tx.hash, tx.holder, orders, height, tx.op);
      case PumpOp(order) => script := PumpIsRun(db, tx.hash, tx.holder, order, height, tx.op);
      case _ =>
        script := [];
        if SimpleScript(db, tx, height).Ok? && Run(db, SimpleScript(db, tx, height).value, height).Ok? {
          script := SimpleScript(db, tx, height).value;
        }
    }
  }

  // ---------------------------------------------------------------------------------------------------------------
  // Consequences: rollback, heights, conservation
  // ---------------------------------------------------------------------------------------------------------------

  lemma RecordedTracks(s: Database, d: Database, tx: Tx, height: nat, h: nat)
    requires Tracks(s, d, h) && height > h && tx.hash !in d.infos
    ensures Tracks(s, Recorded(d, tx, height), h)
  {
    hide BookTracks, Typed, PoolsTrack, BornApart, Extends, RewindCurves, RewindStakes;
  }

  /** A transaction above `h`, whatever it does, can be rolled back to `s`. */
  lemma ExecuteTracks(s: Database, d: Database, tx: Tx, height: nat, h: nat)
    requires Tracks(s, d, h) && height > h
    ensures Tracks(s, ExecuteTx(d, tx, height), h)
  {
    hide Tracks, Dispatch;
    if tx.hash !in d.infos {
      RecordedTracks(s, d, tx, height, h);
      var script := DispatchIsRun(Recorded(d, tx, height), tx, height);
      RunTracks(s, Recorded(d, tx, height), script, height, h);
    }
  }

  lemma {:induction false} ExecuteAllTracks(s: Database, d: Database, txs: seq<Tx>, height: nat, h: nat)
    requires Tracks(s, d, h) && height > h
    ensures Tracks(s, ExecuteAll(d, txs, height), h)
    decreases |txs|
  {
    hide Tracks, ExecuteTx;
    if txs != [] {
      ExecuteTracks(s, d, txs[0], height, h);
      ExecuteAllTracks(s, ExecuteTx(d, txs[0], height), txs[1..], height, h);
    }
  }
}
