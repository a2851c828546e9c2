/** When a trade on a curve goes through, when it graduates the curve or leaves it stuck, and when holders can sell:
    conditions on the state before it. */
module Trades {
  import opened Results
  import opened Names
  import opened Ledger
  import opened Db
  import opened Quotes
  import opened Swap
  import opened Pump
  import opened Dispatching
  import opened Effects
  import opened PoolSafety
  import opened OrderSafety
  import opened RunSafety
  import opened PumpSafety
  import opened Graduation
  import opened PumpRuns

  /** The fee must not round to a transfer of nothing, nor must the inviter's half of it. */
  predicate FeesMove(d: Database, trader: Signer, fee: nat) {
    && fee >= 1
    && (trader in d.inviters ==> fee / 2 >= 1 && d.inviters[trader] != TX_FEE)
  }

  lemma FeesGo(d: Database, at: Database, trader: Signer, payer: Party, fee: nat, height: nat)
    ensures Run(at, FeeScript(d, trader, payer, fee), height).Ok? <==>
            payer != TX_FEE && FeesMove(d, trader, fee) && fee <= Bal(at, WDOGE, payer)
  {
    hide Apply, Delta, SupplyDelta;
    var s0 := Move(WDOGE, payer, TX_FEE, fee);
    MoveGoes(at, WDOGE, payer, TX_FEE, fee, height);
    if trader in d.inviters {
      var s1 := Move(WDOGE, TX_FEE, d.inviters[trader], fee / 2);
      assert FeeScript(d, trader, payer, fee) == [s0] + ([s1] + []);
      RunFirst(at, s0, [s1] + [], height);
      if Apply(at, s0, height).Ok? {
        var mid := Apply(at, s0, height).value;
        RunFirst(mid, s1, [], height);
        StepEffect(at, s0, height, WDOGE, TX_FEE);
        Gained(payer, TX_FEE, fee);
        MoveGoes(mid, WDOGE, TX_FEE, d.inviters[trader], fee / 2, height);
      }
    } else {
      assert FeeScript(d, trader, payer, fee) == [s0] + [];
      RunFirst(at, s0, [], height);
    }
  }

  /** A sale is accepted if and only if the seller has the memes, the fees are not rounded away, and the curve's address
      has the real WDOGE; by PumpRuns.DeployedSalesCovered the last always holds on a curve without a reserve. */
  lemma SaleIff(d: Database, trader: Signer, id: string, amt: nat, height: nat)
    requires amt > 0 && id in d.curves && InvitersTidy(d)
    ensures var out := Out(amt, d.curves[id].amt0, d.curves[id].amt1);
            Run(d, TradeScript(d, trader, id, false, amt), height).Ok? <==>
            && amt <= Bal(d, Meme(id), trader)
            && out <= Bal(d, WDOGE, PumpReserves(id))
            && FeesMove(d, trader, out / 100)
  {
    hide Apply, Delta, SupplyDelta, Total, SupplyTotal, Out, FeeScript, FeesMove;
    var c := d.curves[id];
    OutKeepsProduct(amt, c.amt0, c.amt1);
    var out := Out(amt, c.amt0, c.amt1);
    var fee := out / 100;
    var s0, s1 := Move(Meme(id), trader, PumpReserves(id), amt), Move(WDOGE, PumpReserves(id), trader, out - fee);
    var fees := FeeScript(d, trader, PumpReserves(id), fee);
    var last := [s1, SetCurve(id, c.amt0 + amt, c.amt1 - out)];
    assert TradeScript(d, trader, id, false, amt) == [s0] + (fees + last);
    RunFirst(d, s0, fees + last, height);
    MoveGoes(d, Meme(id), trader, PumpReserves(id), amt, height);
    if Apply(d, s0, height).Ok? {
      var mid := Apply(d, s0, height).value;
      StepEffect(d, s0, height, WDOGE, PumpReserves(id));
      assert Delta(s0, WDOGE, PumpReserves(id)) == 0 by { OtherTick(s0, WDOGE, PumpReserves(id)); }
      LedgerlyStep(d, s0, height);
      RunAppend(mid, fees, last, height);
      FeesGo(d, mid, trader, PumpReserves(id), fee, height);
      if Run(mid, fees, height).Ok? {
        var paid := Run(mid, fees, height).value;
        FeeEffect(d, trader, PumpReserves(id), fee, WDOGE, id);
        RunEffect(mid, fees, height, WDOGE, PumpReserves(id));
        LedgerlyRun(mid, fees, height);
        assert last == [s1] + last[1..];
        RunFirst(paid, s1, last[1..], height);
        MoveGoes(paid, WDOGE, PumpReserves(id), trader, out - fee, height);
        if Apply(paid, s1, height).Ok? {
          LedgerlyStep(paid, s1, height);
          SetCurveRun(Apply(paid, s1, height).value, id, c.(amt0 := c.amt0 + amt, amt1 := c.amt1 - out), height);
        }
        FeePositive(d, trader, fee, out);
      }
    }
  }

  lemma FeePositive(d: Database, trader: Signer, fee: nat, out: nat)
    requires FeesMove(d, trader, fee) && fee == out / 100
    ensures out - fee >= 1
  {}

  /** What the fee of a purchase costs the trader: one who is his own inviter gets half of it back. */
  function FeeBack(d: Database, trader: Signer, fee: nat): nat {
    if trader in d.inviters && d.inviters[trader] == trader then fee / 2 else 0
  }

  lemma FeeTrader(d: Database, trader: Signer, fee: nat)
    requires trader != TX_FEE
    ensures Total(FeeScript(d, trader, trader, fee), WDOGE, trader) == FeeBack(d, trader, fee) - fee
  {
    var first := Move(WDOGE, trader, TX_FEE, fee);
    if trader in d.inviters {
      Total2(first, Move(WDOGE, TX_FEE, d.inviters[trader], fee / 2), WDOGE, trader);
    } else {
      TotalCons(first, [], WDOGE, trader);
      assert [first] + [] == [first];
    }
  }

  lemma FeeMemes(d: Database, trader: Signer, payer: Party, fee: nat, id: string, a: Address)
    ensures Total(FeeScript(d, trader, payer, fee), Meme(id), a) == 0
    ensures forall s <- FeeScript(d, trader, payer, fee) :: Ledgerly(s)
  {
    var first := Move(WDOGE, payer, TX_FEE, fee);
    if trader in d.inviters {
      Total2(first, Move(WDOGE, TX_FEE, d.inviters[trader], fee / 2), Meme(id), a);
    } else {
      TotalCons(first, [], Meme(id), a);
      assert [first] + [] == [first];
    }
  }

  /** What a purchase takes: somebody else than the fee address, fee parts that do not round to nothing, the whole
      amount in WDOGE, and memes to be had for it. */
  predicate BuyAccepted(d: Database, trader: Signer, id: string, amt: nat)
    requires amt > 0 && id in d.curves
  {
    var fee := amt / 100;
    var out := Out(amt - fee, d.curves[id].amt1, d.curves[id].amt0);
    && trader != TX_FEE
    && FeesMove(d, trader, fee)
    && amt - FeeBack(d, trader, fee) <= Bal(d, WDOGE, trader)
    && 1 <= out <= Bal(d, Meme(id), PumpReserves(id))
  }

  /** A purchase is accepted if and only if its trader can pay it and it buys something. */
  lemma BuyIff(d: Database, trader: Signer, id: string, amt: nat, height: nat)
    requires amt > 0 && id in d.curves
    ensures Run(d, TradeScript(d, trader, id, true, amt), height).Ok? <==> BuyAccepted(d, trader, id, amt)
  {
    hide Apply, Delta, SupplyDelta, Total, SupplyTotal, Out, FeeScript, FeesMove, FeeBack;
    var c := d.curves[id];
    var fee := amt / 100;
    var x := amt - fee;
    OutKeepsProduct(x, c.amt1, c.amt0);
    var out := Out(x, c.amt1, c.amt0);
    var fees := FeeScript(d, trader, trader, fee);
    var pay, get := Move(WDOGE, trader, PumpReserves(id), x), Move(Meme(id), PumpReserves(id), trader, out);
    var rest := [pay] + ([get] + [SetCurve(id, c.amt0 - out, c.amt1 + x)]);
    assert TradeScript(d, trader, id, true, amt) == fees + rest;
    RunAppend(d, fees, rest, height);
    FeesGo(d, d, trader, trader, fee, height);
    FeeAfford(d, trader, amt);
    if Run(d, fees, height).Ok? {
      var paid := Run(d, fees, height).value;
      FeeTrader(d, trader, fee);
      FeeMemes(d, trader, trader, fee, id, PumpReserves(id));
      RunEffect(d, fees, height, WDOGE, trader);
      RunEffect(d, fees, height, Meme(id), PumpReserves(id));
      LedgerlyRun(d, fees, height);
      PayAndGet(paid, trader, id, x, out, c.(amt0 := c.amt0 - out, amt1 := c.amt1 + x), height);
    }
  }

  /** The fee alone is affordable when the whole amount is. */
  lemma FeeAfford(d: Database, trader: Signer, amt: nat)
    ensures amt / 100 <= amt - FeeBack(d, trader, amt / 100)
  {}

  /** The part of a purchase behind its fee. */
  lemma PayAndGet(d: Database, trader: Signer, id: string, x: nat, out: nat, c: Curve, height: nat)
    requires x >= 1 && id in d.curves && c.creator == d.curves[id].creator
    ensures Run(d, [Move(WDOGE, trader, PumpReserves(id), x)] +
                   ([Move(Meme(id), PumpReserves(id), trader, out)] + [SetCurve(id, c.amt0, c.amt1)]), height).Ok? <==>
            x <= Bal(d, WDOGE, trader) && 1 <= out <= Bal(d, Meme(id), PumpReserves(id))
  {
    hide Apply, Delta, SupplyDelta;
    var pay, get := Move(WDOGE, trader, PumpReserves(id), x), Move(Meme(id), PumpReserves(id), trader, out);
    var set_ := [SetCurve(id, c.amt0, c.amt1)];
    RunFirst(d, pay, [get] + set_, height);
    MoveGoes(d, WDOGE, trader, PumpReserves(id), x, height);
    if Apply(d, pay, height).Ok? {
      var mid := Apply(d, pay, height).value;
      StepEffect(d, pay, height, Meme(id), PumpReserves(id));
      OtherTick(pay, Meme(id), PumpReserves(id));
      LedgerlyStep(d, pay, height);
      RunFirst(mid, get, set_, height);
      MoveGoes(mid, Meme(id), PumpReserves(id), trader, out, height);
      if Apply(mid, get, height).Ok? {
        LedgerlyStep(mid, get, height);
        SetCurveRun(Apply(mid, get, height).value, id, c, height);
      }
    }
  }

  // ---------------------------------------------------------------------------------------------------------------
  // Where a curve ends
  // ---------------------------------------------------------------------------------------------------------------

  /** An accepted trade on an open curve brings the address to the graduation mark if and only if it is a purchase that
      carries the row there. */
  lemma ReachesMark(d: Database, trader: Signer, id: string, buy: bool, amt: nat, height: nat)
    requires amt > 0 && id in d.curves && CurveInv(d, id) && InvitersTidy(d) && d.curves[id].amt1 < CLOSED_AT
    requires Run(d, TradeScript(d, trader, id, buy, amt), height).Ok?
    ensures var f := Run(d, TradeScript(d, trader, id, buy, amt), height).value;
            && f.curves == d.curves[id := AfterTrade(d.curves[id], buy, amt)] && f.pools == d.pools
            && f.meme20.tokens.Keys == d.meme20.tokens.Keys
            && CurveInv(f, id) && Backed(f, id)
            && (Bal(f, WDOGE, PumpReserves(id)) >= DOGE_MAX <==>
                buy && d.curves[id].amt1 + (amt - amt / 100) >= GRADUATED_AT)
            && f.curves[id].amt1 == Bal(f, WDOGE, PumpReserves(id)) + DOGE_INIT
            && (if buy then f.curves[id].amt1 == d.curves[id].amt1 + (amt - amt / 100)
                else f.curves[id].amt1 <= d.curves[id].amt1)
  {
    hide Run, TradeScript, Out;
    TradeBacked(d, trader, id, buy, amt, height);
    if !buy {
      OutKeepsProduct(amt, d.curves[id].amt0, d.curves[id].amt1);
    }
  }

  /** A trade that reaches the mark goes all the way: the curve ends in its pool, under a name that must be new. */
  lemma TradeGraduates(d: Database, hash: string, trader: Signer, id: string, amt: nat, height: nat)
    requires Safe(d) && InvitersTidy(d) && amt > 0 && id in d.curves && CurveInv(d, id)
    requires d.curves[id].amt1 < CLOSED_AT && d.curves[id].amt1 + (amt - amt / 100) >= GRADUATED_AT
    requires BuyAccepted(d, trader, id, amt)
    requires V2(hash) !in d.pools && Meme(hash) !in d.meme20.tokens
    ensures TradeCurve(d, hash, trader, id, true, amt, height).Ok?
    ensures var f := TradeCurve(d, hash, trader, id, true, amt, height).value;
            && V2(hash) in f.pools && f.pools[V2(hash)].tick0 == Meme(id) && f.pools[V2(hash)].tick1 == WDOGE
            && Bal(f, WDOGE, PumpReserves(id)) == 0 && Bal(f, Meme(id), PumpReserves(id)) == 0
            && id in f.curves && f.curves[id].amt1 == d.curves[id].amt1 + (amt - amt / 100) >= GRADUATED_AT
  {
    hide Run, Finish, TradeScript, BuyScript, SellScript, ConservedAll, PoolInv, Out, BuyAccepted;
    var script := TradeScript(d, trader, id, true, amt);
    TradeRuns(d, hash, trader, id, true, amt, height);
    BuyIff(d, trader, id, amt, height);
    var traded := Run(d, script, height).value;
    ReachesMark(d, trader, id, true, amt, height);
    RunConserves(d, script, height);
    GraduationSucceeds(traded, hash, id, d.curves[id].creator, height);
  }

  lemma TradeRuns(d: Database, hash: string, trader: Signer, id: string, buy: bool, amt: nat, height: nat)
    requires amt > 0 && id in d.curves
    ensures TradeCurve(d, hash, trader, id, buy, amt, height) ==
            var traded := Run(d, TradeScript(d, trader, id, buy, amt), height);
            if traded.Failed? || Bal(traded.value, WDOGE, PumpReserves(id)) < DOGE_MAX then traded
            else Finish(traded.value, hash, id, d.curves[id].creator, height)
  {
    hide Run, Finish, BuyScript, SellScript;
  }

  lemma FinishFresh(d: Database, hash: string, id: string, creator: Signer, height: nat)
    requires Finish(d, hash, id, creator, height).Ok?
    ensures V2(hash) !in d.pools && Meme(hash) !in d.meme20.tokens
  {
    hide Run, CreateScript;
    var paid := Run(d, FinishFees(id, creator), height).value;
    LedgerlyRun(d, FinishFees(id, creator), height);
    CreateIsFresh(paid, PumpReserves(id), V2(hash), Meme(id), WDOGE,
                  Bal(paid, Meme(id), PumpReserves(id)), Bal(paid, WDOGE, PumpReserves(id)), height);
  }

  /** A trade graduates its curve if and only if it is a purchase that is accepted and carries the curve, in one go,
      from below the closing mark (3.0e12 real WDOGE) to the graduation mark (1.0e13), under a name that is new: storage
      and the guard disagree about where a curve ends. */
  lemma GraduatesIff(d: Database, hash: string, trader: Signer, id: string, buy: bool, amt: nat, height: nat)
    requires Safe(d) && InvitersTidy(d) && amt > 0 && id in d.curves && CurveInv(d, id) && d.curves[id].amt1 < CLOSED_AT
    ensures var f := TradeCurve(d, hash, trader, id, buy, amt, height);
            f.Ok? && V2(hash) in f.value.pools && V2(hash) !in d.pools <==>
            && buy && BuyAccepted(d, trader, id, amt) && d.curves[id].amt1 + (amt - amt / 100) >= GRADUATED_AT
            && V2(hash) !in d.pools && Meme(hash) !in d.meme20.tokens
  {
    hide Run, Finish, TradeCurve, TradeScript, Safe, InvitersTidy, CurveInv, Backed, BuyAccepted, Bal;
    TradeRuns(d, hash, trader, id, buy, amt, height);
    BuyIff(d, trader, id, amt, height);
    if Run(d, TradeScript(d, trader, id, buy, amt), height).Ok? {
      ReachesMark(d, trader, id, buy, amt, height);
      var traded := Run(d, TradeScript(d, trader, id, buy, amt), height).value;
      if Finish(traded, hash, id, d.curves[id].creator, height).Ok? {
        FinishFresh(traded, hash, id, d.curves[id].creator, height);
      }
    }
    if buy && BuyAccepted(d, trader, id, amt) && d.curves[id].amt1 + (amt - amt / 100) >= GRADUATED_AT
       && V2(hash) !in d.pools && Meme(hash) !in d.meme20.tokens {
      TradeGraduates(d, hash, trader, id, amt, height);
    }
  }

  /** Which trades leave an open curve stuck: exactly the accepted purchases that land between the two marks. */
  lemma GetsStuckIff(d: Database, hash: string, trader: Signer, id: string, buy: bool, amt: nat, height: nat)
    requires InvitersTidy(d) && amt > 0 && id in d.curves && CurveInv(d, id) && d.curves[id].amt1 < CLOSED_AT
    ensures var f := TradeCurve(d, hash, trader, id, buy, amt, height);
            (f.Ok? && id in f.value.curves && CLOSED_AT <= f.value.curves[id].amt1 < GRADUATED_AT) <==>
            buy && BuyAccepted(d, trader, id, amt) && CLOSED_AT <= d.curves[id].amt1 + (amt - amt / 100) < GRADUATED_AT
  {
    hide Run, Finish, TradeCurve, TradeScript, InvitersTidy, CurveInv, Backed, BuyAccepted, Bal, AfterTrade;
    TradeRuns(d, hash, trader, id, buy, amt, height);
    BuyIff(d, trader, id, amt, height);
    if Run(d, TradeScript(d, trader, id, buy, amt), height).Ok? {
      ReachesMark(d, trader, id, buy, amt, height);
      var traded := Run(d, TradeScript(d, trader, id, buy, amt), height).value;
      if Bal(traded, WDOGE, PumpReserves(id)) >= DOGE_MAX && Finish(traded, hash, id, d.curves[id].creator, height).Ok? {
        FinishCurve(traded, hash, id, d.curves[id].creator, height, id);
      }
    }
  }

  // ---------------------------------------------------------------------------------------------------------------
  // A curve deployed with a reserve
  // ---------------------------------------------------------------------------------------------------------------

  /** Right after a deploy every holder's sale is covered if and only if nothing was set aside for the creator. */
  lemma DeployedCoveredIff(reserve: nat)
    requires reserve <= 99
    ensures var share := CurveShare(reserve);
            (forall amt | 0 < amt <= MEME_MAX - share :: Out(amt, share, DOGE_INIT) <= 0) <==> reserve == 0
  {
    hide Out;
    if reserve > 0 {
      SalesCoveredIff(CurveShare(reserve), DOGE_INIT);
      assert Out(MEME_MAX - CurveShare(reserve), CurveShare(reserve), DOGE_INIT) > 0 by {
        WholeIssueOut(CurveShare(reserve), DOGE_INIT);
      }
    }
  }

  /** A deploy with any reserve goes through, and the creator's sale of what was set aside then does not, in any
      transaction and at any height: the memes are the creator's, the WDOGE is not there. */
  lemma ReserveSaleFails(d: Database, hash: string, creator: Signer, reserve: int, height: nat)
    requires Safe(d) && InvitersTidy(d) && CurveInv(d, hash) && hash !in d.curves && Meme(hash) !in d.meme20.tokens
    requires 1 <= reserve <= 99
    ensures DeployOrder(d, hash, creator, reserve, 0, height).Ok?
    ensures var f := DeployOrder(d, hash, creator, reserve, 0, height).value;
            var amt := MEME_MAX - CurveShare(reserve);
            && hash in f.curves && f.curves[hash].amt1 < CLOSED_AT && 0 < amt == Bal(f, Meme(hash), creator)
            && forall other, doge, h :: TradeOrder(f, other, creator, hash, Meme(hash), amt, doge, h) == Failed
  {
    hide Out, TradeOrder, Apply, CurveShare, PoolInv, Conserved, Bal;
    var open_ := OpenCurve(hash, creator, reserve);
    OpensFresh(d, hash, creator, reserve, height);
    assert Run(d, [open_], height) == Apply(d, open_, height);
    OpenedCurve(d, hash, creator, reserve, height);
    CreatorHolds(d, hash, creator, reserve, height);
    ShareBounds(reserve);
    WholeIssueOut(CurveShare(reserve), DOGE_INIT);
    var f := Apply(d, open_, height).value;
    InvitersSame(d, f);
    var amt := MEME_MAX - CurveShare(reserve);
    forall other, doge, h
      ensures TradeOrder(f, other, creator, hash, Meme(hash), amt, doge, h) == Failed
    {
      UncoveredFails(f, other, creator, hash, amt, doge, h);
    }
  }

  lemma ShareBounds(reserve: nat)
    requires 1 <= reserve <= 99
    ensures 0 < CurveShare(reserve) < MEME_MAX && CurveShare(reserve) * DOGE_INIT <= MEME_MAX * (DOGE_INIT - 1)
  {}

  lemma OpensFresh(d: Database, id: string, creator: Signer, reserve: nat, height: nat)
    requires id !in d.curves && Meme(id) !in d.meme20.tokens && reserve <= 99
    ensures Apply(d, OpenCurve(id, creator, reserve), height).Ok?
  {
    hide CurveToken, AddToken, CurveShare;
  }

  lemma CreatorShare(id: string, creator: Signer, reserve: nat)
    requires reserve <= 99
    ensures Delta(OpenCurve(id, creator, reserve), Meme(id), creator) == MEME_MAX - CurveShare(reserve)
  {}

  /** What was set aside is the creator's. */
  lemma CreatorHolds(d: Database, id: string, creator: Signer, reserve: nat, height: nat)
    requires Meme(id) !in d.meme20.tokens && Apply(d, OpenCurve(id, creator, reserve), height).Ok? && reserve <= 99
    ensures Bal(Apply(d, OpenCurve(id, creator, reserve), height).value, Meme(id), creator) ==
            MEME_MAX - CurveShare(reserve)
  {
    hide Apply, Delta, SupplyDelta, CurveShare;
    StepEffect(d, OpenCurve(id, creator, reserve), height, Meme(id), creator);
    CreatorShare(id, creator, reserve);
  }

  /** With nothing real at its address, no sale of what asks for something goes through. */
  lemma UncoveredFails(f: Database, other: string, trader: Signer, id: string, amt: nat, doge: bool, h: nat)
    requires InvitersTidy(f) && id in f.curves && amt > 0
    requires Out(amt, f.curves[id].amt0, f.curves[id].amt1) > Bal(f, WDOGE, PumpReserves(id))
    ensures TradeOrder(f, other, trader, id, Meme(id), amt, doge, h) == Failed
  {
    hide Out, FeesMove, TradeVerified, TradeCurve, Run, TradeScript, Finish, PayOut, Bal, InvitersTidy;
    SaleIff(f, trader, id, amt, h);
    TradeRuns(f, other, trader, id, false, amt, h);
  }
}
