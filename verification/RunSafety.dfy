/** The pool theorem over whole transactions and whole runs. */
module RunSafety {
  import opened Names
  import opened Ledger
  import opened Db
  import opened Quotes
  import opened Swap
  import opened Pump
  import opened Execute
  import opened Dispatching
  import opened Effects
  import opened PoolSafety
  import opened OrderSafety

  lemma ElsewhereKeeps(d: Database, script: seq<Step>, height: nat, tidy: bool)
    requires Safe(d) && Run(d, script, height).Ok? && forall s <- script :: Elsewhere(s)
    requires tidy ==> forall s <- script :: NoGift(s)
    ensures Keeps(d, Run(d, script, height).value, tidy)
  {
    hide Run, Elsewhere, NoGift, PoolInv, PoolAgrees;
    ElsewhereSafe(d, script, height);
  }

  lemma PaysSafe(d: Database, holder: Signer, amt: int, height: nat)
    requires Safe(d)
    ensures PayIn(d, holder, amt, height).Ok? ==> Keeps(d, PayIn(d, holder, amt, height).value, true)
    ensures amt >= 0 && PayOut(d, holder, amt, height).Ok? ==> Keeps(d, PayOut(d, holder, amt, height).value, true)
  {
    hide Run, Safe, Keeps;
    if amt <= 0 {
      KeepsSelf(d, true);
    } else {
      if Run(d, [MintTo(WDOGE, holder, amt)], height).Ok? {
        ElsewhereKeeps(d, [MintTo(WDOGE, holder, amt)], height, true);
      }
      if Run(d, [BurnFrom(WDOGE, holder, amt)], height).Ok? {
        ElsewhereKeeps(d, [BurnFrom(WDOGE, holder, amt)], height, true);
      }
    }
  }

  lemma KeepsSafe(d: Database, d': Database, tidy: bool)
    requires Keeps(d, d', tidy)
    ensures Safe(d')
  {}

  lemma PairSafe(d: Database, hash: string, holder: Signer, os: seq<PairOrder>, height: nat)
    requires Safe(d)
    ensures Keeps(d, PairTx(d, hash, holder, os, height), true)
  {
    hide PayIn, PayOut, RunOrders, Deposits, Safe, Keeps;
    KeepsSelf(d, true);
    if Deposits(d.pools, os).Ok? && PayIn(d, holder, Deposits(d.pools, os).value, height).Ok? {
      var funded := PayIn(d, holder, Deposits(d.pools, os).value, height).value;
      PaysSafe(d, holder, Deposits(d.pools, os).value, height);
      KeepsSafe(d, funded, true);
      if OrdersAndPayOut(funded, hash, holder, os, height).Ok? {
        var done := RunOrders(funded, hash, holder, os, height).value;
        OrdersSafe(funded, hash, holder, os, height);
        KeepsSafe(funded, done.0, true);
        PaysSafe(done.0, holder, done.1, height);
        KeepsTrans(d, funded, done.0, true);
        KeepsTrans(d, done.0, PayOut(done.0, holder, done.1, height).value, true);
      }
    }
  }

  // ---------------------------------------------------------------------------------------------------------------
  // The pump
  // ---------------------------------------------------------------------------------------------------------------

  ghost predicate InvitersTidy(d: Database) {
    forall k <- d.inviters :: d.inviters[k].User?
  }

  lemma TradeElsewhere(d: Database, trader: Signer, id: string, buy: bool, amt: nat)
    requires amt > 0 && id in d.curves
    ensures forall s <- TradeScript(d, trader, id, buy, amt) :: Elsewhere(s)
    ensures InvitersTidy(d) ==> forall s <- TradeScript(d, trader, id, buy, amt) :: NoGift(s)
  {}

  lemma FinishSafe(d: Database, hash: string, id: string, creator: Signer, height: nat)
    requires Safe(d) && Finish(d, hash, id, creator, height).Ok?
    ensures Keeps(d, Finish(d, hash, id, creator, height).value, true)
  {
    hide Run, CreateScript, Safe, Keeps;
    var paid := Run(d, FinishFees(id, creator), height).value;
    ElsewhereKeeps(d, FinishFees(id, creator), height, true);
    KeepsSafe(d, paid, true);
    CreateSafe(paid, PumpReserves(id), V2(hash), Meme(id), WDOGE,
               Bal(paid, Meme(id), PumpReserves(id)), Bal(paid, WDOGE, PumpReserves(id)), height);
    KeepsTrans(d, paid, Finish(d, hash, id, creator, height).value, true);
  }

  lemma TradeSafe(d: Database, hash: string, trader: Signer, id: string, buy: bool, amt: nat, height: nat, tidy: bool)
    requires Safe(d) && amt > 0 && TradeCurve(d, hash, trader, id, buy, amt, height).Ok? && (tidy ==> InvitersTidy(d))
    ensures Keeps(d, TradeCurve(d, hash, trader, id, buy, amt, height).value, tidy)
  {
    hide Run, Finish, Safe, Keeps, BuyScript, SellScript, InvitersTidy;
    var traded := Run(d, TradeScript(d, trader, id, buy, amt), height).value;
    TradeElsewhere(d, trader, id, buy, amt);
    ElsewhereKeeps(d, TradeScript(d, trader, id, buy, amt), height, tidy);
    if Bal(traded, WDOGE, PumpReserves(id)) >= DOGE_MAX {
      KeepsSafe(d, traded, tidy);
      FinishSafe(traded, hash, id, d.curves[id].creator, height);
      KeepsWeaker(traded, Finish(traded, hash, id, d.curves[id].creator, height).value, tidy);
      KeepsTrans(d, traded, Finish(traded, hash, id, d.curves[id].creator, height).value, tidy);
    }
  }

  lemma KeepsWeaker(d: Database, d': Database, tidy: bool)
    requires Keeps(d, d', true)
    ensures Keeps(d, d', tidy)
  {}

  lemma TradeOrderSafe(d: Database, hash: string, trader: Signer, id: string, input: Tick, amt: int, doge: bool,
                       height: nat, tidy: bool)
    requires Safe(d) && TradeOrder(d, hash, trader, id, input, amt, doge, height).Ok? && (tidy ==> InvitersTidy(d))
    ensures Keeps(d, TradeOrder(d, hash, trader, id, input, amt, doge, height).value, tidy)
  {
    hide Run, TradeCurve, Safe, Keeps, PayOut, InvitersTidy;
    var traded := TradeCurve(d, hash, trader, id, input == WDOGE, amt, height).value;
    var marked := Run(traded, [MarkTraded(hash)], height).value;
    var out := if doge && input != WDOGE then SaleProceeds(d.curves[id], amt) else 0;
    TradeSafe(d, hash, trader, id, input == WDOGE, amt, height, tidy);
    KeepsSafe(d, traded, tidy);
    ElsewhereKeeps(traded, [MarkTraded(hash)], height, tidy);
    KeepsSafe(traded, marked, tidy);
    PaysSafe(marked, trader, out, height);
    KeepsWeaker(marked, PayOut(marked, trader, out, height).value, tidy);
    KeepsTrans(d, traded, marked, tidy);
    KeepsTrans(d, marked, PayOut(marked, trader, out, height).value, tidy);
  }

  lemma DeployOrderSafe(d: Database, hash: string, creator: Signer, reserve: int, firstBuy: int, height: nat, tidy: bool)
    requires Safe(d) && DeployOrder(d, hash, creator, reserve, firstBuy, height).Ok? && (tidy ==> InvitersTidy(d))
    ensures Keeps(d, DeployOrder(d, hash, creator, reserve, firstBuy, height).value, tidy)
  {
    hide Run, TradeCurve, Safe, Keeps, InvitersTidy;
    var script := [OpenCurve(hash, creator, reserve)];
    var started := Run(d, script, height).value;
    ElsewhereKeeps(d, script, height, tidy);
    if firstBuy > 0 {
      KeepsSafe(d, started, tidy);
      SameInviters(d, script, height);
      TradeSafe(started, hash, creator, hash, true, firstBuy, height, tidy);
      KeepsTrans(d, started, TradeCurve(started, hash, creator, hash, true, firstBuy, height).value, tidy);
    }
  }

  lemma SameInviters(d: Database, script: seq<Step>, height: nat)
    requires Run(d, script, height).Ok?
    ensures InvitersTidy(Run(d, script, height).value) <==> InvitersTidy(d)
  {
    RunKeeps(d, script, height);
  }

  lemma PumpSafe(d: Database, hash: string, holder: Signer, o: PumpOrder, height: nat, tidy: bool)
    requires Safe(d) && (tidy ==> InvitersTidy(d))
    ensures Keeps(d, PumpTx(d, hash, holder, o, height), tidy)
  {
    hide TradeOrder, DeployOrder, Safe, Keeps, InvitersTidy, Run;
    KeepsSelf(d, tidy);
    var dep := PumpDeposit(o);
    if PayIn(d, holder, dep, height).Ok? {
      var funded := PayIn(d, holder, dep, height).value;
      PaysSafe(d, holder, dep, height);
      KeepsWeaker(d, funded, tidy);
      KeepsSafe(d, funded, tidy);
      if dep > 0 {
        SameInviters(d, [MintTo(WDOGE, holder, dep)], height);
      }
      match o
      case Deploy(reserve, firstBuy, _) =>
        if DeployOrder(funded, hash, holder, reserve, firstBuy, height).Ok? {
          DeployOrderSafe(funded, hash, holder, reserve, firstBuy, height, tidy);
          KeepsTrans(d, funded, DeployOrder(funded, hash, holder, reserve, firstBuy, height).value, tidy);
        }
      case Trade(id, input, amt, doge) =>
        if TradeOrder(funded, hash, holder, id, input, amt, doge, height).Ok? {
          TradeOrderSafe(funded, hash, holder, id, input, amt, doge, height, tidy);
          KeepsTrans(d, funded, TradeOrder(funded, hash, holder, id, input, amt, doge, height).value, tidy);
        }
    }
  }

  // ---------------------------------------------------------------------------------------------------------------
  // Whole runs
  // ---------------------------------------------------------------------------------------------------------------

  /** The transaction sends nothing straight to a reserves address. */
  predicate Giftless(op: Op) {
    match op
    case TransferOp(_, to, _) => !to.Reserves?
    case MemeTransferOp(_, to, _) => !to.Reserves?
    case _ => true
  }

  lemma SimpleElsewhere(d: Database, tx: Tx, height: nat)
    requires !tx.op.PairV1Op? && !tx.op.PairV2Op? && !tx.op.PumpOp? && SimpleScript(d, tx, height).Ok?
    ensures forall s <- SimpleScript(d, tx, height).value :: Elsewhere(s)
    ensures Giftless(tx.op) ==> forall s <- SimpleScript(d, tx, height).value :: NoGift(s)
  {}

  lemma DispatchSafe(d: Database, tx: Tx, height: nat, tidy: bool)
    requires Safe(d) && (tidy ==> InvitersTidy(d) && Giftless(tx.op))
    ensures Keeps(d, Dispatch(d, tx, height), tidy)
  {
    hide PairTx, PumpTx, Safe, Keeps, SimpleScript, InvitersTidy, Run;
    match tx.op
    case PairV1Op(orders) =>
      PairSafe(d, tx.hash, tx.holder, orders, height);
      KeepsWeaker(d, PairTx(d, tx.hash, tx.holder, orders, height), tidy);
    case PairV2Op(orders) =>
      PairSafe(d, tx.hash, tx.holder, orders, height);
      KeepsWeaker(d, PairTx(d, tx.hash, tx.holder, orders, height), tidy);
    case PumpOp(order) => PumpSafe(d, tx.hash, tx.holder, order, height, tidy);
    case _ =>
      KeepsSelf(d, tidy);
      if SimpleScript(d, tx, height).Ok? && Run(d, SimpleScript(d, tx, height).value, height).Ok? {
        SimpleElsewhere(d, tx, height);
        ElsewhereKeeps(d, SimpleScript(d, tx, height).value, height, tidy);
      }
  }

  lemma RecordedKeeps(d: Database, tx: Tx, height: nat, tidy: bool)
    requires Safe(d)
    ensures Keeps(d, Recorded(d, tx, height), tidy)
  {
    hide PoolInv, PoolAgrees, Conserved;
    forall id
      ensures PoolInv(Recorded(d, tx, height), id)
      ensures PoolAgrees(d, id) ==> PoolAgrees(Recorded(d, tx, height), id)
    {
      SamePool(d, Recorded(d, tx, height), id);
    }
  }

  /** One transaction, whatever it does. */
  lemma ExecuteSafe(d: Database, tx: Tx, height: nat, tidy: bool)
    requires Safe(d) && (tidy ==> InvitersTidy(d) && Giftless(tx.op))
    ensures Keeps(d, ExecuteTx(d, tx, height), tidy)
  {
    hide Safe, Keeps, Dispatch;
    if tx.hash in d.infos {
      KeepsSelf(d, tidy);
    } else {
      RecordedKeeps(d, tx, height, tidy);
      KeepsSafe(d, Recorded(d, tx, height), tidy);
      DispatchSafe(Recorded(d, tx, height), tx, height, tidy);
      KeepsTrans(d, Recorded(d, tx, height), ExecuteTx(d, tx, height), tidy);
    }
  }

  /** A block never drops a table key, and never changes who invited whom. */
  lemma ExecuteKeeps(d: Database, tx: Tx, height: nat)
    ensures var d' := ExecuteTx(d, tx, height);
            d'.infos.Keys == d.infos.Keys + {tx.hash} && d'.inviters == d.inviters
  {
    hide Dispatch;
    if tx.hash !in d.infos {
      var script := DispatchIsRun(Recorded(d, tx, height), tx, height);
      RunKeeps(Recorded(d, tx, height), script, height);
    }
  }

  /** Over any block: token conservation, `total^2 <= r0 r1`, the minimum liquidity and positive reserves are kept for
      every pool, nobody's liquidity loses value, and without direct payments every cache equals the ledger. */
  lemma {:induction false} BlockSafe(d: Database, txs: seq<Tx>, height: nat, tidy: bool)
    requires Safe(d) && (tidy ==> InvitersTidy(d) && forall tx <- txs :: Giftless(tx.op))
    ensures Keeps(d, ExecuteAll(d, txs, height), tidy)
    decreases |txs|
  {
    hide Safe, Keeps, ExecuteTx, Giftless;
    if txs == [] {
      KeepsSelf(d, tidy);
    } else {
      var mid := ExecuteTx(d, txs[0], height);
      ExecuteSafe(d, txs[0], height, tidy);
      KeepsSafe(d, mid, tidy);
      ExecuteKeeps(d, txs[0], height);
      BlockSafe(mid, txs[1..], height, tidy);
      KeepsTrans(d, mid, ExecuteAll(d, txs, height), tidy);
    }
  }

  lemma {:induction false} ExecuteAllKeys(d: Database, txs: seq<Tx>, height: nat)
    ensures ExecuteAll(d, txs, height).infos.Keys == d.infos.Keys + set tx <- txs :: tx.hash
    ensures ExecuteAll(d, txs, height).inviters == d.inviters
    decreases |txs|
  {
    hide ExecuteTx;
    if txs != [] {
      ExecuteKeeps(d, txs[0], height);
      ExecuteAllKeys(ExecuteTx(d, txs[0], height), txs[1..], height);
      assert txs == [txs[0]] + txs[1..];
    }
  }

  /** Over any number of blocks at any heights, as long as no fork comes between. */
  lemma {:induction false} StagesSafe(d: Database, stages: seq<Stage>, tidy: bool)
    requires Safe(d) && (tidy ==> InvitersTidy(d) && forall s <- stages, tx <- s.txs :: Giftless(tx.op))
    ensures Keeps(d, Advance(d, stages), tidy)
    ensures tidy ==> InvitersTidy(Advance(d, stages))
    decreases |stages|
  {
    hide Safe, Keeps, ExecuteAll, Giftless;
    if stages == [] {
      KeepsSelf(d, tidy);
    } else {
      var s := stages[0];
      var mid := ExecuteAll(d, s.txs, s.height);
      assert s in stages;
      BlockSafe(d, s.txs, s.height, tidy);
      KeepsSafe(d, mid, tidy);
      ExecuteAllKeys(d, s.txs, s.height);
      StagesSafe(mid, stages[1..], tidy);
      KeepsTrans(d, mid, Advance(d, stages), tidy);
    }
  }

  /** However many blocks pass and whatever anybody does in them, the value behind a pool's liquidity, `r0 r1 / total^2`
      by its row, never falls, and its reserves stay positive, so no pool division is by zero; a row whose total ends
      where it began shows less of one token only with more of the other. */
  lemma StagesNoDilution(d: Database, stages: seq<Stage>, id: PoolId)
    requires Safe(d) && id in d.pools
    ensures var e := Advance(d, stages);
            && id in e.pools
            && NoDilution(ShapeOf(d.pools[id]), ShapeOf(e.pools[id]))
            && e.pools[id].amt0 > 0 && e.pools[id].amt1 > 0 && e.pools[id].total >= MINI_LIQUIDITY
            && (e.pools[id].total == d.pools[id].total ==>
                  && (e.pools[id].amt0 < d.pools[id].amt0 ==> e.pools[id].amt1 > d.pools[id].amt1)
                  && (e.pools[id].amt1 < d.pools[id].amt1 ==> e.pools[id].amt0 > d.pools[id].amt0))
  {
    StagesSafe(d, stages, false);
    var e := Advance(d, stages);
    hide Advance, NoDilution;
    assert PoolInv(d, id) && Kept(d, e, id) && PoolInv(e, id);
    SoundPositive(ShapeOf(e.pools[id]));
    if e.pools[id].total == d.pools[id].total {
      NoFreeLunch(ShapeOf(d.pools[id]), ShapeOf(e.pools[id]));
    }
  }
}
