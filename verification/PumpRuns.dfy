/** The curve theorems over whole transactions and blocks. */
module PumpRuns {
  import opened Names
  import opened Db
  import opened Quotes
  import opened Swap
  import opened Pump
  import opened Execute
  import opened Dispatching
  import opened Effects
  import opened PoolSafety
  import opened RunSafety
  import opened PumpSafety

  /** The transaction sends tokens to users only. */
  predicate ToUsers(op: Op) {
    match op
    case TransferOp(_, to, _) => to.User?
    case MemeTransferOp(_, to, _) => to.User?
    case _ => true
  }

  lemma TradeSparesOthers(d: Database, trader: Signer, id: string, buy: bool, amt: nat, other: string)
    requires amt > 0 && id in d.curves && other != id && InvitersTidy(d)
    ensures forall s <- TradeScript(d, trader, id, buy, amt) ::
              !s.OpenCurve? && RowSpares(s, other) && BalanceSpares(s, other)
  {
    hide Out;
  }

  lemma FinishCurve(d: Database, hash: string, id: string, creator: Signer, height: nat, other: string)
    requires CurveInv(d, other) && Finish(d, hash, id, creator, height).Ok? && id in d.curves
    requires other == id ==> d.curves[id].amt1 >= GRADUATED_AT
    ensures CurveKeeps(d, Finish(d, hash, id, creator, height).value, other)
  {
    hide Run, CurveInv, CurveKept, Isqrt;
    var fees := FinishFees(id, creator);
    var paid := Run(d, fees, height).value;
    var a0, a1 := Bal(paid, Meme(id), PumpReserves(id)), Bal(paid, WDOGE, PumpReserves(id));
    var create := CreateScript(PumpReserves(id), V2(hash), Meme(id), WDOGE, a0, a1).value;
    SparesKeeps(d, fees, height, other);
    CreateIsFresh(paid, PumpReserves(id), V2(hash), Meme(id), WDOGE, a0, a1, height);
    assert other in paid.curves ==> other != hash by { HasToken(paid, other); }
    SparesKeeps(paid, create, height, other);
    CurveTrans(d, paid, Finish(d, hash, id, creator, height).value, other);
  }

  lemma HasToken(d: Database, id: string)
    requires CurveInv(d, id)
    ensures id in d.curves ==> Meme(id) in d.meme20.tokens
  {}

  lemma TradeKeepsCurve(d: Database, hash: string, trader: Signer, id: string, buy: bool, amt: nat, height: nat,
                        other: string)
    requires amt > 0 && InvitersTidy(d) && CurveInv(d, other) && CurveInv(d, id)
    requires id in d.curves && d.curves[id].amt1 < CLOSED_AT
    requires TradeCurve(d, hash, trader, id, buy, amt, height).Ok?
    ensures CurveKeeps(d, TradeCurve(d, hash, trader, id, buy, amt, height).value, other)
  {
    hide Run, Finish, BuyScript, SellScript, Backed;
    var script := TradeScript(d, trader, id, buy, amt);
    var traded := Run(d, script, height).value;
    assert Backed(d, id);
    TradeBacked(d, trader, id, buy, amt, height);
    TradeProduct(d.curves[id], buy, amt);
    if other == id {
      assert CurveKept(d, traded, other);
    } else {
      TradeSparesOthers(d, trader, id, buy, amt, other);
      SparesKeeps(d, script, height, other);
    }
    if Bal(traded, WDOGE, PumpReserves(id)) >= DOGE_MAX {
      BackedAmount(traded, id);
      FinishCurve(traded, hash, id, d.curves[id].creator, height, other);
      CurveTrans(d, traded, Finish(traded, hash, id, d.curves[id].creator, height).value, other);
    }
  }

  lemma BackedAmount(d: Database, id: string)
    requires id in d.curves && Backed(d, id)
    ensures d.curves[id].amt1 == Bal(d, WDOGE, PumpReserves(id)) + DOGE_INIT
  {}

  lemma TradeOrderCurve(d: Database, hash: string, trader: Signer, id: string, input: Tick, amt: int, doge: bool,
                        height: nat, other: string)
    requires InvitersTidy(d) && CurveInv(d, other) && CurveInv(d, id)
    requires TradeOrder(d, hash, trader, id, input, amt, doge, height).Ok?
    ensures CurveKeeps(d, TradeOrder(d, hash, trader, id, input, amt, doge, height).value, other)
  {
    hide Run, TradeCurve, PayOut, CurveInv, CurveKept, InvitersTidy;
    var traded := TradeCurve(d, hash, trader, id, input == WDOGE, amt, height).value;
    var marked := Run(traded, [MarkTraded(hash)], height).value;
    var out := if doge && input != WDOGE then SaleProceeds(d.curves[id], amt) else 0;
    TradeKeepsCurve(d, hash, trader, id, input == WDOGE, amt, height, other);
    SparesKeeps(traded, [MarkTraded(hash)], height, other);
    PaysCurve(marked, trader, out, height, other);
    CurveTrans(d, traded, marked, other);
    CurveTrans(d, marked, PayOut(marked, trader, out, height).value, other);
  }

  lemma OpenedRow(d: Database, id: string, creator: Signer, reserve: nat, height: nat)
    requires Apply(d, OpenCurve(id, creator, reserve), height).Ok?
    ensures var f := Apply(d, OpenCurve(id, creator, reserve), height).value;
            && id in f.curves && f.curves[id] == Curve(CurveShare(reserve), DOGE_INIT, creator)
            && f.pools == d.pools && f.inviters == d.inviters
            && Meme(id) in f.meme20.tokens
            && id !in d.curves && Meme(id) !in d.meme20.tokens && reserve <= 99
  {
    hide CurveToken;
  }

  lemma OpenedHolders(id: string, creator: Signer, reserve: nat)
    requires reserve <= 99
    ensures Delta(OpenCurve(id, creator, reserve), WDOGE, PumpReserves(id)) == 0
    ensures Delta(OpenCurve(id, creator, reserve), Meme(id), PumpReserves(id)) == CurveShare(reserve) >= 1
    ensures SupplyDelta(OpenCurve(id, creator, reserve), Meme(id)) == MEME_MAX
  {}

  /** A fresh curve is backed: nothing real, everything virtual. */
  lemma OpenedCurve(d: Database, id: string, creator: Signer, reserve: nat, height: nat)
    requires PoolInv(d, V2(id)) && CurveInv(d, id) && Apply(d, OpenCurve(id, creator, reserve), height).Ok?
    ensures var f := Apply(d, OpenCurve(id, creator, reserve), height).value;
            && id in f.curves && f.curves[id] == Curve(CurveShare(reserve), DOGE_INIT, creator)
            && CurveInv(f, id) && Backed(f, id) && f.inviters == d.inviters
            && id !in d.curves
  {
    hide Apply, Delta, SupplyDelta, CurveShare, Sound;
    OpenedRow(d, id, creator, reserve, height);
    OpenedHolders(id, creator, reserve);
    StepEffect(d, OpenCurve(id, creator, reserve), height, WDOGE, PumpReserves(id));
    StepEffect(d, OpenCurve(id, creator, reserve), height, Meme(id), PumpReserves(id));
  }

  lemma DeployCurve(d: Database, hash: string, creator: Signer, reserve: int, firstBuy: int, height: nat, other: string)
    requires Safe(d) && InvitersTidy(d) && CurveInv(d, other) && CurveInv(d, hash)
    requires DeployOrder(d, hash, creator, reserve, firstBuy, height).Ok?
    ensures CurveKeeps(d, DeployOrder(d, hash, creator, reserve, firstBuy, height).value, other)
  {
    hide Apply, TradeCurve, PoolInv, Backed;
    var script := [OpenCurve(hash, creator, reserve)];
    var started := Run(d, script, height).value;
    assert PoolInv(d, V2(hash));
    assert Run(d, script, height) == Apply(d, script[0], height);
    OpenedCurve(d, hash, creator, reserve, height);
    if other != hash {
      SparesKeeps(d, script, height, other);
    }
    if firstBuy > 0 {
      TradeKeepsCurve(started, hash, creator, hash, true, firstBuy, height, other);
      CurveTrans(d, started, TradeCurve(started, hash, creator, hash, true, firstBuy, height).value, other);
    }
  }

  lemma PumpCurve(d: Database, hash: string, holder: Signer, o: PumpOrder, height: nat, other: string)
    requires Safe(d) && InvitersTidy(d) && forall id :: CurveInv(d, id)
    ensures CurveKeeps(d, PumpTx(d, hash, holder, o, height), other)
  {
    hide TradeOrder, DeployOrder, Safe, InvitersTidy, Run, CurveInv, CurveKept;
    CurveSelf(d, other);
    var dep := PumpDeposit(o);
    if PayIn(d, holder, dep, height).Ok? {
      var funded := PayIn(d, holder, dep, height).value;
      PaysSafe(d, holder, dep, height);
      KeepsSafe(d, funded, true);
      if dep > 0 {
        SameInviters(d, [MintTo(WDOGE, holder, dep)], height);
      }
      PaysCurve(d, holder, dep, height, other);
      match o
      case Deploy(reserve, firstBuy, _) =>
        if DeployOrder(funded, hash, holder, reserve, firstBuy, height).Ok? {
          PaysCurve(d, holder, dep, height, hash);
          DeployCurve(funded, hash, holder, reserve, firstBuy, height, other);
          CurveTrans(d, funded, DeployOrder(funded, hash, holder, reserve, firstBuy, height).value, other);
        }
      case Trade(id, input, amt, doge) =>
        if TradeOrder(funded, hash, holder, id, input, amt, doge, height).Ok? {
          PaysCurve(d, holder, dep, height, id);
          TradeOrderCurve(funded, hash, holder, id, input, amt, doge, height, other);
          CurveTrans(d, funded, TradeOrder(funded, hash, holder, id, input, amt, doge, height).value, other);
        }
    }
  }

  lemma SimpleSparesCurve(d: Database, tx: Tx, height: nat, id: string)
    requires !tx.op.PairV1Op? && !tx.op.PairV2Op? && !tx.op.PumpOp? && SimpleScript(d, tx, height).Ok? && ToUsers(tx.op)
    ensures forall s <- SimpleScript(d, tx, height).value ::
              !s.OpenCurve? && RowSpares(s, id) && BalanceSpares(s, id)
  {}

  lemma DispatchCurve(d: Database, tx: Tx, height: nat, id: string)
    requires Safe(d) && InvitersTidy(d) && ToUsers(tx.op) && forall i :: CurveInv(d, i)
    ensures CurveKeeps(d, Dispatch(d, tx, height), id)
  {
    hide PairTx, PumpTx, Safe, CurveInv, CurveKept, SimpleScript, InvitersTidy, Run;
    match tx.op
    case PairV1Op(orders) => PairCurve(d, tx.hash, tx.holder, orders, height, id);
    case PairV2Op(orders) => PairCurve(d, tx.hash, tx.holder, orders, height, id);
    case PumpOp(order) => PumpCurve(d, tx.hash, tx.holder, order, height, id);
    case _ =>
      CurveSelf(d, id);
      if SimpleScript(d, tx, height).Ok? && Run(d, SimpleScript(d, tx, height).value, height).Ok? {
        SimpleSparesCurve(d, tx, height, id);
        SparesKeeps(d, SimpleScript(d, tx, height).value, height, id);
      }
  }

  /** Everything the curve theorems need of a state. */
  ghost predicate Pumping(d: Database) {
    Safe(d) && InvitersTidy(d) && forall id :: CurveInv(d, id)
  }

  ghost predicate PumpKeeps(d: Database, d': Database) {
    Pumping(d') && forall id :: CurveKept(d, d', id)
  }

  lemma ExecuteCurve(d: Database, tx: Tx, height: nat)
    requires Pumping(d) && ToUsers(tx.op)
    ensures PumpKeeps(d, ExecuteTx(d, tx, height))
  {
    hide Dispatch, CurveInv, CurveKept, Safe, InvitersTidy;
    var d' := ExecuteTx(d, tx, height);
    ExecuteSafe(d, tx, height, false);
    KeepsSafe(d, d', false);
    ExecuteKeeps(d, tx, height);
    InvitersSame(d, d');
    RecordedKeeps(d, tx, height, false);
    KeepsSafe(d, Recorded(d, tx, height), false);
    forall id
      ensures CurveInv(Recorded(d, tx, height), id) && CurveKept(d, Recorded(d, tx, height), id)
    {
      RecordedCurve(d, tx, height, id);
    }
    InvitersSame(d, Recorded(d, tx, height));
    forall id
      ensures CurveInv(d', id) && CurveKept(d, d', id)
    {
      if tx.hash in d.infos {
        CurveSelf(d, id);
      } else {
        DispatchCurve(Recorded(d, tx, height), tx, height, id);
        CurveTrans(d, Recorded(d, tx, height), d', id);
      }
    }
  }

  lemma InvitersSame(d: Database, d': Database)
    requires d'.inviters == d.inviters && InvitersTidy(d)
    ensures InvitersTidy(d')
  {}

  lemma RecordedCurve(d: Database, tx: Tx, height: nat, id: string)
    requires CurveInv(d, id)
    ensures CurveKeeps(d, Recorded(d, tx, height), id)
  {}

  /** Over any block that pays users only: every curve stays backed to the unit until it graduates, its product never
      falls, and once its amount reaches the closing mark it never changes again. */
  lemma {:induction false} BlockCurves(d: Database, txs: seq<Tx>, height: nat)
    requires Pumping(d) && forall tx <- txs :: ToUsers(tx.op)
    ensures PumpKeeps(d, ExecuteAll(d, txs, height))
    decreases |txs|
  {
    hide Safe, InvitersTidy, CurveInv, CurveKept, ExecuteTx, ToUsers;
    if txs == [] {
      forall id ensures CurveKept(d, d, id) {
        CurveSelf(d, id);
      }
    } else {
      var mid := ExecuteTx(d, txs[0], height);
      ExecuteCurve(d, txs[0], height);
      BlockCurves(mid, txs[1..], height);
      forall id ensures CurveKept(d, ExecuteAll(d, txs, height), id) {
        CurveTrans(d, mid, ExecuteAll(d, txs, height), id);
      }
    }
  }

  /** So over any number of blocks, as long as no fork comes between. */
  lemma {:induction false} StagesCurves(d: Database, stages: seq<Stage>)
    requires Pumping(d) && forall s <- stages, tx <- s.txs :: ToUsers(tx.op)
    ensures PumpKeeps(d, Advance(d, stages))
    decreases |stages|
  {
    hide Safe, InvitersTidy, CurveInv, CurveKept, ExecuteAll, ToUsers;
    if stages == [] {
      forall id ensures CurveKept(d, d, id) {
        CurveSelf(d, id);
      }
    } else {
      var s := stages[0];
      var mid := ExecuteAll(d, s.txs, s.height);
      assert s in stages;
      BlockCurves(d, s.txs, s.height);
      StagesCurves(mid, stages[1..]);
      forall id ensures CurveKept(d, Advance(d, stages), id) {
        CurveTrans(d, mid, Advance(d, stages), id);
      }
    }
  }

  /** However many blocks later, as long as no fork comes between: once a curve's product is above the bound, every sale
      of any holder on it is covered for as long as it is open. */
  lemma LaterSaleCovered(d: Database, stages: seq<Stage>, id: string, trader: Signer, amt: nat)
    requires Pumping(d) && forall s <- stages, tx <- s.txs :: ToUsers(tx.op)
    requires id in d.curves && d.curves[id].amt0 * d.curves[id].amt1 > MEME_MAX * (DOGE_INIT - 1)
    ensures var f := Advance(d, stages);
            && id in f.curves
            && (f.curves[id].amt1 < CLOSED_AT && 0 < amt <= Bal(f, Meme(id), trader) ==>
                  Out(amt, f.curves[id].amt0, f.curves[id].amt1) <= Bal(f, WDOGE, PumpReserves(id)))
  {
    hide Advance, Out;
    StagesCurves(d, stages);
    var f := Advance(d, stages);
    assert CurveKept(d, f, id) && CurveInv(f, id);
    if f.curves[id].amt1 < CLOSED_AT && 0 < amt <= Bal(f, Meme(id), trader) {
      SaleCovered(f, id, trader, amt);
    }
  }

  /** A curve between the two marks is stuck: however many blocks pass, as long as no fork comes between, no trade on it
      is accepted, it never graduates, and the WDOGE at its address cannot be moved by anybody. */
  lemma StuckForever(d: Database, stages: seq<Stage>, id: string)
    requires Pumping(d) && forall s <- stages, tx <- s.txs :: ToUsers(tx.op)
    requires id in d.curves && CLOSED_AT <= d.curves[id].amt1 < GRADUATED_AT
    ensures var f := Advance(d, stages);
            && id in f.curves && f.curves[id] == d.curves[id]
            && Bal(f, WDOGE, PumpReserves(id)) == d.curves[id].amt1 - DOGE_INIT
            && Bal(f, Meme(id), PumpReserves(id)) == d.curves[id].amt0
            && forall trader, input, amt, h :: !TradeVerified(f, trader, id, input, amt, h)
  {
    hide Advance;
    StagesCurves(d, stages);
    var f := Advance(d, stages);
    assert CurveKept(d, f, id) && CurveInv(f, id);
  }

  // ---------------------------------------------------------------------------------------------------------------
  // A curve deployed without a reserve
  // ---------------------------------------------------------------------------------------------------------------

  lemma DeployProduct(d: Database, hash: string, creator: Signer, firstBuy: int, height: nat)
    requires Safe(d) && InvitersTidy(d) && CurveInv(d, hash)
    requires DeployOrder(d, hash, creator, 0, firstBuy, height).Ok?
    ensures var f := DeployOrder(d, hash, creator, 0, firstBuy, height).value;
            hash in f.curves && f.curves[hash].amt0 * f.curves[hash].amt1 >= MEME_MAX * DOGE_INIT
  {
    hide Apply, TradeCurve, PoolInv, Backed;
    var script := [OpenCurve(hash, creator, 0)];
    var started := Run(d, script, height).value;
    assert PoolInv(d, V2(hash));
    assert Run(d, script, height) == Apply(d, script[0], height);
    OpenedCurve(d, hash, creator, 0, height);
    if firstBuy > 0 {
      TradeKeepsCurve(started, hash, creator, hash, true, firstBuy, height, hash);
    }
  }

  lemma PayInCurves(d: Database, holder: Signer, amt: int, height: nat)
    requires PayIn(d, holder, amt, height).Ok?
    ensures PayIn(d, holder, amt, height).value.curves == d.curves
    ensures PayIn(d, holder, amt, height).value.inviters == d.inviters
  {
    hide Apply;
    if amt > 0 {
      LedgerlyRun(d, [MintTo(WDOGE, holder, amt)], height);
    }
  }

  /** A transaction that deploys a curve without a reserve leaves it, with its first purchase or not, with at least the
      whole product. */
  lemma DeployedProduct(d: Database, tx: Tx, firstBuy: int, doge: bool, height: nat)
    requires Pumping(d) && tx.op == PumpOp(Deploy(0, firstBuy, doge)) && tx.hash !in d.curves
    requires tx.hash in ExecuteTx(d, tx, height).curves
    ensures var c := ExecuteTx(d, tx, height).curves[tx.hash];
            c.amt0 * c.amt1 >= MEME_MAX * DOGE_INIT
  {
    hide DeployOrder, PayIn, CurveInv, CurveKept, Safe, InvitersTidy;
    if tx.hash !in d.infos {
      var r := Recorded(d, tx, height);
      RecordedKeeps(d, tx, height, false);
      KeepsSafe(d, r, false);
      RecordedCurve(d, tx, height, tx.hash);
      InvitersSame(d, r);
      var dep := PumpDeposit(tx.op.order);
      if PayIn(r, tx.holder, dep, height).Ok? {
        var funded := PayIn(r, tx.holder, dep, height).value;
        PaysSafe(r, tx.holder, dep, height);
        KeepsSafe(r, funded, true);
        PaysCurve(r, tx.holder, dep, height, tx.hash);
        PayInCurves(r, tx.holder, dep, height);
        InvitersSame(r, funded);
        if DeployOrder(funded, tx.hash, tx.holder, 0, firstBuy, height).Ok? {
          DeployProduct(funded, tx.hash, tx.holder, firstBuy, height);
        }
      }
    }
  }

  /** A curve deployed without a reserve can buy back whatever any holder has, in every later block, for as long as it
      is open and no fork comes between. */
  lemma DeployedSalesCovered(d: Database, tx: Tx, firstBuy: int, doge: bool, height: nat, stages: seq<Stage>,
                             trader: Signer, amt: nat)
    requires Pumping(d) && tx.op == PumpOp(Deploy(0, firstBuy, doge)) && tx.hash !in d.curves
    requires tx.hash in ExecuteTx(d, tx, height).curves
    requires forall s <- stages, t <- s.txs :: ToUsers(t.op)
    ensures var f := Advance(ExecuteTx(d, tx, height), stages);
            && tx.hash in f.curves
            && (f.curves[tx.hash].amt1 < CLOSED_AT && 0 < amt <= Bal(f, Meme(tx.hash), trader) ==>
                  Out(amt, f.curves[tx.hash].amt0, f.curves[tx.hash].amt1) <= Bal(f, WDOGE, PumpReserves(tx.hash)))
  {
    hide Advance, Out, ExecuteTx, CurveInv, CurveKept, Safe;
    ExecuteCurve(d, tx, height);
    DeployedProduct(d, tx, firstBuy, doge, height);
    LaterSaleCovered(ExecuteTx(d, tx, height), stages, tx.hash, trader, amt);
  }
}
