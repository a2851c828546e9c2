/** One completed v2 swap and one completed pump trade for each holder in each block, whatever the block holds. */
module Turns {
  import opened Names
  import opened Ledger
  import opened Db
  import opened Quotes
  import opened Swap
  import opened Pump
  import opened Execute
  import opened Dispatching
  import opened Effects
  import opened PumpSafety
  import opened Receipts

  /** A completed v2 swap or pump trade. */
  predicate OfAKind(i: Info) {
    i.traded && (i.protocol == PairV2 || i.protocol == Protocol.Pump)
  }

  /** No two trades of one kind are on record as completed for one holder at one height. */
  ghost predicate OneEach(d: Database) {
    forall i, j | i in d.infos && j in d.infos && i != j :: OfAKind(d.infos[i]) ==> d.infos[i] != d.infos[j]
  }

  /** Writes that are no marks leave the info rows alone. */
  lemma {:induction false} UnmarkedRun(d: Database, script: seq<Step>, height: nat)
    requires Run(d, script, height).Ok? && forall s <- script :: !s.MarkTraded?
    ensures Run(d, script, height).value.infos == d.infos
    decreases |script|
  {
    hide Apply;
    if script != [] {
      UnmarkedStep(d, script[0], height);
      UnmarkedRun(Apply(d, script[0], height).value, script[1..], height);
    }
  }

  lemma UnmarkedStep(d: Database, s: Step, height: nat)
    requires Apply(d, s, height).Ok? && !s.MarkTraded?
    ensures Apply(d, s, height).value.infos == d.infos
  {
    hide TransferIn, MintIn, BurnIn, CurveToken, Refreshed;
    if Ledgerly(s) {
      LedgerlyStep(d, s, height);
    }
  }

  /** The rows after a step: as before, or the transaction's own row marked, as the first of its kind. */
  ghost predicate Turn(d: Database, e: Database, hash: string, protocol: Protocol, holder: Signer, height: nat) {
    || e.infos == d.infos
    || (&& hash in d.infos && e.infos == d.infos[hash := d.infos[hash].(traded := true)]
        && FirstToday(d, protocol, holder, height))
  }

  lemma OrderTurn(d: Database, hash: string, holder: Signer, o: PairOrder, height: nat)
    requires RunOrder(d, hash, holder, o, height).Ok?
    ensures Turn(d, RunOrder(d, hash, holder, o, height).value.0, hash, PairV2, holder, height)
  {
    hide Run, Out, AfterFee, Minted, AddAmounts, Redeemed, AddVerified, Isqrt;
    var script := OrderPlan(d, hash, holder, o.order, height).value.script;
    if o.order.Exec? && o.order.pool.V2? {
      var writes := script[..|script| - 1];
      assert script == writes + [MarkTraded(hash)];
      RunAppend(d, writes, [MarkTraded(hash)], height);
      UnmarkedRun(d, writes, height);
      MarkedOnly(Run(d, writes, height).value, hash, height);
    } else {
      UnmarkedRun(d, script, height);
    }
  }

  lemma MarkedOnly(d: Database, hash: string, height: nat)
    requires Run(d, [MarkTraded(hash)], height).Ok?
    ensures hash in d.infos
    ensures Run(d, [MarkTraded(hash)], height).value.infos == d.infos[hash := d.infos[hash].(traded := true)]
  {
    assert [MarkTraded(hash)] == [MarkTraded(hash)] + [];
    RunFirst(d, MarkTraded(hash), [], height);
  }

  lemma {:induction false} OrdersTurn(d: Database, hash: string, holder: Signer, os: seq<PairOrder>, height: nat)
    requires RunOrders(d, hash, holder, os, height).Ok?
    ensures Turn(d, RunOrders(d, hash, holder, os, height).value.0, hash, PairV2, holder, height)
    decreases |os|
  {
    hide RunOrder, FirstToday;
    if os != [] {
      var mid := RunOrder(d, hash, holder, os[0], height).value.0;
      OrderTurn(d, hash, holder, os[0], height);
      OrdersTurn(mid, hash, holder, os[1..], height);
      if mid.infos == d.infos {
        SameToday(d, mid);
      }
    }
  }

  lemma SameToday(d: Database, e: Database)
    requires e.infos == d.infos
    ensures forall p, a, h :: FirstToday(e, p, a, h) <==> FirstToday(d, p, a, h)
  {}

  lemma PaysUnmarked(d: Database, holder: Signer, amt: int, height: nat)
    ensures PayIn(d, holder, amt, height).Ok? ==> PayIn(d, holder, amt, height).value.infos == d.infos
    ensures amt >= 0 && PayOut(d, holder, amt, height).Ok? ==> PayOut(d, holder, amt, height).value.infos == d.infos
  {
    hide Run;
    if amt > 0 {
      if Run(d, [MintTo(WDOGE, holder, amt)], height).Ok? {
        UnmarkedRun(d, [MintTo(WDOGE, holder, amt)], height);
      }
      if Run(d, [BurnFrom(WDOGE, holder, amt)], height).Ok? {
        UnmarkedRun(d, [BurnFrom(WDOGE, holder, amt)], height);
      }
    }
  }

  lemma PairTurn(d: Database, hash: string, holder: Signer, os: seq<PairOrder>, height: nat)
    ensures Turn(d, PairTx(d, hash, holder, os, height), hash, PairV2, holder, height)
  {
    hide PayIn, PayOut, RunOrders, Deposits, FirstToday;
    if Deposits(d.pools, os).Ok? && PayIn(d, holder, Deposits(d.pools, os).value, height).Ok? {
      var funded := PayIn(d, holder, Deposits(d.pools, os).value, height).value;
      PaysUnmarked(d, holder, Deposits(d.pools, os).value, height);
      SameToday(d, funded);
      if OrdersAndPayOut(funded, hash, holder, os, height).Ok? {
        var done := RunOrders(funded, hash, holder, os, height).value;
        OrdersTurn(funded, hash, holder, os, height);
        PaysUnmarked(done.0, holder, done.1, height);
      }
    }
  }

  lemma CurveUnmarked(d: Database, hash: string, trader: Signer, id: string, buy: bool, amt: nat, height: nat)
    requires amt > 0 && TradeCurve(d, hash, trader, id, buy, amt, height).Ok?
    ensures TradeCurve(d, hash, trader, id, buy, amt, height).value.infos == d.infos
  {
    hide Run, Out, Isqrt;
    var script := TradeScript(d, trader, id, buy, amt);
    assert forall s <- script :: !s.MarkTraded?;
    UnmarkedRun(d, script, height);
    var traded := Run(d, script, height).value;
    if Bal(traded, WDOGE, PumpReserves(id)) >= DOGE_MAX {
      FinishUnmarked(traded, hash, id, d.curves[id].creator, height);
    }
  }

  lemma FinishUnmarked(d: Database, hash: string, id: string, creator: Signer, height: nat)
    requires Finish(d, hash, id, creator, height).Ok?
    ensures Finish(d, hash, id, creator, height).value.infos == d.infos
  {
    hide Run, Isqrt, Bal;
    var paid := Run(d, FinishFees(id, creator), height).value;
    UnmarkedRun(d, FinishFees(id, creator), height);
    var create := CreateScript(PumpReserves(id), V2(hash), Meme(id), WDOGE, Bal(paid, Meme(id), PumpReserves(id)),
                               Bal(paid, WDOGE, PumpReserves(id))).value;
    UnmarkedRun(paid, create, height);
  }

  lemma PumpTurn(d: Database, hash: string, holder: Signer, o: PumpOrder, height: nat)
    ensures Turn(d, PumpTx(d, hash, holder, o, height), hash, Protocol.Pump, holder, height)
  {
    hide PayIn, TradeOrder, DeployOrder, FirstToday;
    if PayIn(d, holder, PumpDeposit(o), height).Ok? {
      var funded := PayIn(d, holder, PumpDeposit(o), height).value;
      PaysUnmarked(d, holder, PumpDeposit(o), height);
      SameToday(d, funded);
      match o
      case Deploy(reserve, firstBuy, _) =>
        if DeployOrder(funded, hash, holder, reserve, firstBuy, height).Ok? {
          DeployUnmarked(funded, hash, holder, reserve, firstBuy, height);
        }
      case Trade(id, input, amt, doge) =>
        if TradeOrder(funded, hash, holder, id, input, amt, doge, height).Ok? {
          TradeTurn(funded, hash, holder, id, input, amt, doge, height);
        }
    }
  }

  lemma DeployUnmarked(d: Database, hash: string, creator: Signer, reserve: int, firstBuy: int, height: nat)
    requires DeployOrder(d, hash, creator, reserve, firstBuy, height).Ok?
    ensures DeployOrder(d, hash, creator, reserve, firstBuy, height).value.infos == d.infos
  {
    hide Run, TradeCurve;
    UnmarkedRun(d, [OpenCurve(hash, creator, reserve)], height);
    if firstBuy > 0 {
      CurveUnmarked(Run(d, [OpenCurve(hash, creator, reserve)], height).value, hash, creator, hash, true, firstBuy, height);
    }
  }

  lemma TradeTurn(d: Database, hash: string, trader: Signer, id: string, input: Tick, amt: int, doge: bool, height: nat)
    requires TradeOrder(d, hash, trader, id, input, amt, doge, height).Ok?
    ensures Turn(d, TradeOrder(d, hash, trader, id, input, amt, doge, height).value, hash, Protocol.Pump, trader, height)
  {
    hide Run, TradeCurve, PayOut, SaleProceeds;
    var traded := TradeCurve(d, hash, trader, id, input == WDOGE, amt, height).value;
    var marked := Run(traded, [MarkTraded(hash)], height).value;
    CurveUnmarked(d, hash, trader, id, input == WDOGE, amt, height);
    MarkedOnly(traded, hash, height);
    PaysUnmarked(marked, trader, if doge && input != WDOGE then SaleProceeds(d.curves[id], amt) else 0, height);
  }

  lemma DispatchTurn(d: Database, tx: Tx, height: nat)
    ensures Turn(d, Dispatch(d, tx, height), tx.hash, if tx.op.PumpOp? then Protocol.Pump else PairV2, tx.holder, height)
  {
    hide PairTx, PumpTx, Run, FirstToday;
    match tx.op
    case PairV1Op(orders) => PairTurn(d, tx.hash, tx.holder, orders, height);
    case PairV2Op(orders) => PairTurn(d, tx.hash, tx.holder, orders, height);
    case PumpOp(order) => PumpTurn(d, tx.hash, tx.holder, order, height);
    case _ =>
      if SimpleScript(d, tx, height).Ok? && Run(d, SimpleScript(d, tx, height).value, height).Ok? {
        UnmarkedRun(d, SimpleScript(d, tx, height).value, height);
      }
  }

  lemma ExecuteTurn(d: Database, tx: Tx, height: nat)
    requires OneEach(d)
    ensures OneEach(ExecuteTx(d, tx, height))
  {
    hide Dispatch;
    if tx.hash !in d.infos {
      var r := Recorded(d, tx, height);
      DispatchTurn(r, tx, height);
      MarkKeepsOne(d, r, ExecuteTx(d, tx, height), tx, height);
    }
  }

  lemma MarkKeepsOne(d: Database, r: Database, e: Database, tx: Tx, height: nat)
    requires OneEach(d) && tx.hash !in d.infos && r == Recorded(d, tx, height)
    requires Turn(r, e, tx.hash, if tx.op.PumpOp? then Protocol.Pump else PairV2, tx.holder, height)
    ensures OneEach(e)
  {
    forall i, j | i in e.infos && j in e.infos && i != j && OfAKind(e.infos[i])
      ensures e.infos[i] != e.infos[j]
    {
      if i != tx.hash && j != tx.hash {
        assert i in d.infos && j in d.infos;
      } else {
        var other := if i == tx.hash then j else i;
        assert other in d.infos && e.infos[other] == r.infos[other];
        assert tx.op.PairV2Op? || tx.op.PumpOp? ==>
            e.infos == r.infos || r.infos[other] != Info(ProtocolOf(tx.op), height, tx.holder, true);
      }
    }
  }

  /** Over any number of blocks, whatever they hold. */
  lemma {:induction false} BlockTurns(d: Database, txs: seq<Tx>, height: nat)
    requires OneEach(d)
    ensures OneEach(ExecuteAll(d, txs, height))
    decreases |txs|
  {
    hide ExecuteTx, OneEach;
    if txs != [] {
      ExecuteTurn(d, txs[0], height);
      BlockTurns(ExecuteTx(d, txs[0], height), txs[1..], height);
    }
  }

  lemma {:induction false} StagesTurns(d: Database, stages: seq<Stage>)
    requires OneEach(d)
    ensures OneEach(Advance(d, stages))
    decreases |stages|
  {
    hide ExecuteAll, OneEach;
    if stages != [] {
      BlockTurns(d, stages[0].txs, stages[0].height);
      StagesTurns(ExecuteAll(d, stages[0].txs, stages[0].height), stages[1..]);
    }
  }

  /** Nor does a fork bring back a second one. */
  lemma ForkTurns(d: Database, h: nat)
    requires OneEach(d) && Fork(d, h).Ok?
    ensures OneEach(Fork(d, h).value)
  {
    hide Rewind, RewindCurves, RewindStakes, RefreshAll;
    var f := Fork(d, h).value;
    assert f.infos == KeptInfos(d.infos, h);
  }
}
