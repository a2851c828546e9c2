/** What every pump transaction pays and is paid, to the unit, and exactly when it is accepted: purchases, sales,
    deploys and graduation, with native coins or without. */
module PumpReceipts {
  import opened Results
  import opened Names
  import opened Db
  import opened Quotes
  import opened Swap
  import opened Pump
  import opened Execute
  import opened Dispatching
  import opened Effects
  import opened PoolSafety
  import opened OrderSafety
  import opened RunSafety
  import opened PumpSafety
  import opened Graduation
  import opened PumpRuns
  import opened Trades
  import opened Receipts
  import opened SingleOps
  import opened Routing

  /** A trading fee: to the fee address, and half of it on to the trader's inviter. */
  function FeePaid(d: Database, trader: Signer, payer: Address, fee: int, t: Tick, a: Address): int {
    Paid(t, a, WDOGE, payer, TX_FEE, fee)
    + if trader in d.inviters then Paid(t, a, WDOGE, TX_FEE, d.inviters[trader], fee / 2) else 0
  }

  lemma FeeTotals(d: Database, trader: Signer, payer: Party, fee: nat, t: Tick, a: Address)
    ensures Total(FeeScript(d, trader, payer, fee), t, a) == FeePaid(d, trader, payer, fee, t, a)
    ensures SupplyTotal(FeeScript(d, trader, payer, fee), t) == 0
  {
    hide Delta, SupplyDelta, Paid;
    var first := Move(WDOGE, payer, TX_FEE, fee);
    PaidByMove(first, t, a);
    if trader in d.inviters {
      var second := Move(WDOGE, TX_FEE, d.inviters[trader], fee / 2);
      PaidByMove(second, t, a);
      Total2(first, second, t, a);
    } else {
      TotalCons(first, [], t, a);
      assert [first] + [] == [first];
    }
  }

  // ---------------------------------------------------------------------------------------------------------------
  // The trade alone
  // ---------------------------------------------------------------------------------------------------------------

  /** What an accepted purchase of `out` for `amt` changes. */
  ghost predicate Buys(d: Database, e: Database, trader: Signer, id: string, amt: int, out: int)
    requires id in d.curves
  {
    var fee := amt / 100;
    && (forall t, a :: Bal(e, t, a) == Bal(d, t, a) + FeePaid(d, trader, trader, fee, t, a)
                                       + Paid(t, a, WDOGE, trader, PumpReserves(id), amt - fee)
                                       + Paid(t, a, Meme(id), PumpReserves(id), trader, out))
    && (forall t :: Issued(e, t) == Issued(d, t))
    && 0 <= out <= d.curves[id].amt0 && 0 <= amt
    && e.curves == d.curves[id := d.curves[id].(amt0 := d.curves[id].amt0 - out, amt1 := d.curves[id].amt1 + (amt - fee))]
    && e.pools == d.pools && e.stakes == d.stakes && e.infos == d.infos && e.inviters == d.inviters
    && e.drc20.tokens.Keys == d.drc20.tokens.Keys && e.meme20.tokens.Keys == d.meme20.tokens.Keys
  }

  /** What an accepted sale of `amt` for `out` changes. */
  ghost predicate Sells(d: Database, e: Database, trader: Signer, id: string, amt: int, out: int)
    requires id in d.curves
  {
    var fee := out / 100;
    && (forall t, a :: Bal(e, t, a) == Bal(d, t, a) + Paid(t, a, Meme(id), trader, PumpReserves(id), amt)
                                       + FeePaid(d, trader, PumpReserves(id), fee, t, a)
                                       + Paid(t, a, WDOGE, PumpReserves(id), trader, out - fee))
    && (forall t :: Issued(e, t) == Issued(d, t))
    && 0 <= out <= d.curves[id].amt1 && 0 <= amt
    && e.curves == d.curves[id := d.curves[id].(amt0 := d.curves[id].amt0 + amt, amt1 := d.curves[id].amt1 - out)]
    && e.pools == d.pools && e.stakes == d.stakes && e.infos == d.infos && e.inviters == d.inviters
    && e.drc20.tokens.Keys == d.drc20.tokens.Keys && e.meme20.tokens.Keys == d.meme20.tokens.Keys
  }

  lemma TradeRows(d: Database, trader: Signer, id: string, buy: bool, amt: nat, height: nat)
    requires amt > 0 && id in d.curves && Run(d, TradeScript(d, trader, id, buy, amt), height).Ok?
    ensures var e := Run(d, TradeScript(d, trader, id, buy, amt), height).value;
            && e.curves == d.curves[id := AfterTrade(d.curves[id], buy, amt)]
            && e.pools == d.pools && e.stakes == d.stakes && e.infos == d.infos && e.inviters == d.inviters
            && e.drc20.tokens.Keys == d.drc20.tokens.Keys && e.meme20.tokens.Keys == d.meme20.tokens.Keys
  {
    hide TradeMoves, AfterTrade, Run, TradeScript;
    var moves := TradeMoves(d, trader, id, buy, amt);
    var c := AfterTrade(d.curves[id], buy, amt);
    TradeSplit(d, trader, id, buy, amt);
    RunAppend(d, moves, [SetCurve(id, c.amt0, c.amt1)], height);
    TradeProduct(d.curves[id], buy, amt);
    LedgerlyRun(d, moves, height);
    SetCurveRun(Run(d, moves, height).value, id, c, height);
  }

  lemma BuyChanges(d: Database, trader: Signer, id: string, amt: nat, out: nat, height: nat)
    requires amt > 0 && id in d.curves && Run(d, TradeScript(d, trader, id, true, amt), height).Ok?
    requires out == Out(amt - amt / 100, d.curves[id].amt1, d.curves[id].amt0)
    ensures Buys(d, Run(d, TradeScript(d, trader, id, true, amt), height).value, trader, id, amt, out)
  {
    hide Run, Total, SupplyTotal, Bal, Issued, Out, FeeScript, FeePaid;
    var c, fee := d.curves[id], amt / 100;
    var x := amt - fee;
    OutKeepsProduct(x, c.amt1, c.amt0);
    var fees := FeeScript(d, trader, trader, fee);
    var pay, get := Move(WDOGE, trader, PumpReserves(id), x), Move(Meme(id), PumpReserves(id), trader, out);
    var set_ := SetCurve(id, c.amt0 - out, c.amt1 + x);
    var script := TradeScript(d, trader, id, true, amt);
    assert script == fees + [pay, get, set_];
    TradeRows(d, trader, id, true, amt, height);
    var e := Run(d, script, height).value;
    forall t: Tick, a: Address
      ensures Bal(e, t, a) == Bal(d, t, a) + FeePaid(d, trader, trader, fee, t, a)
                              + Paid(t, a, WDOGE, trader, PumpReserves(id), x)
                              + Paid(t, a, Meme(id), PumpReserves(id), trader, out)
    {
      RunEffect(d, script, height, t, a);
      TotalAppend(fees, [pay, get, set_], t, a);
      Total3(pay, get, set_, t, a);
      FeeTotals(d, trader, trader, fee, t, a);
    }
    forall t: Tick
      ensures Issued(e, t) == Issued(d, t)
    {
      RunEffect(d, script, height, t, trader);
      TotalAppend(fees, [pay, get, set_], t, trader);
      Total3(pay, get, set_, t, trader);
      FeeTotals(d, trader, trader, fee, t, trader);
    }
  }

  lemma SellChanges(d: Database, trader: Signer, id: string, amt: nat, out: nat, height: nat)
    requires amt > 0 && id in d.curves && Run(d, TradeScript(d, trader, id, false, amt), height).Ok?
    requires out == Out(amt, d.curves[id].amt0, d.curves[id].amt1)
    ensures Sells(d, Run(d, TradeScript(d, trader, id, false, amt), height).value, trader, id, amt, out)
  {
    hide Run, Total, SupplyTotal, Bal, Issued, Out, FeeScript, FeePaid;
    var c, fee := d.curves[id], out / 100;
    OutKeepsProduct(amt, c.amt0, c.amt1);
    var fees := FeeScript(d, trader, PumpReserves(id), fee);
    var give, get := Move(Meme(id), trader, PumpReserves(id), amt), Move(WDOGE, PumpReserves(id), trader, out - fee);
    var set_ := SetCurve(id, c.amt0 + amt, c.amt1 - out);
    var script := TradeScript(d, trader, id, false, amt);
    assert script == [give] + (fees + [get, set_]);
    TradeRows(d, trader, id, false, amt, height);
    var e := Run(d, script, height).value;
    forall t: Tick, a: Address
      ensures Bal(e, t, a) == Bal(d, t, a) + Paid(t, a, Meme(id), trader, PumpReserves(id), amt)
                              + FeePaid(d, trader, PumpReserves(id), fee, t, a)
                              + Paid(t, a, WDOGE, PumpReserves(id), trader, out - fee)
    {
      RunEffect(d, script, height, t, a);
      TotalCons(give, fees + [get, set_], t, a);
      TotalAppend(fees, [get, set_], t, a);
      Total2(get, set_, t, a);
      FeeTotals(d, trader, PumpReserves(id), fee, t, a);
    }
    forall t: Tick
      ensures Issued(e, t) == Issued(d, t)
    {
      RunEffect(d, script, height, t, trader);
      TotalCons(give, fees + [get, set_], t, trader);
      TotalAppend(fees, [get, set_], t, trader);
      Total2(get, set_, t, trader);
      FeeTotals(d, trader, PumpReserves(id), fee, t, trader);
    }
  }

  lemma OutIs(x: nat, rin: nat, rout: nat)
    requires x > 0
    ensures FloorOf(Out(x, rin, rout), x * rout, rin + x)
  {
    FloorIs(x * rout, rin + x);
  }

  // ---------------------------------------------------------------------------------------------------------------
  // Graduation
  // ---------------------------------------------------------------------------------------------------------------

  /** Everything at the curve's address goes into the new pair, but for the two fees, which are burned; the pair's
      liquidity stays at the curve's address, where nobody can sign for it. */
  ghost predicate Graduates(d: Database, e: Database, id: string, hash: string, memes: int, wdoge: int, base: int) {
    var fees := 110000000000;
    && (forall t, a :: Bal(e, t, a) == Bal(d, t, a) + Paid(t, a, Meme(id), PumpReserves(id), Reserves(V2(hash)), memes)
                                       + Paid(t, a, WDOGE, PumpReserves(id), Reserves(V2(hash)), wdoge - fees)
                                       - (if t == WDOGE && a == PumpReserves(id) then fees else 0)
                                       + (if t == Meme(hash) && a == PumpReserves(id) then base - 1000 else 0)
                                       + (if t == Meme(hash) && a == Reserves(V2(hash)) then 1000 else 0))
    && (forall t :: Issued(e, t) == Issued(d, t) - (if t == WDOGE then fees else 0) + if t == Meme(hash) then base else 0)
    && V2(hash) in e.pools
    && e.pools == d.pools[V2(hash) := Pool(Meme(id), WDOGE, Bal(e, Meme(id), Reserves(V2(hash))),
                                           Bal(e, WDOGE, Reserves(V2(hash))), Issued(e, Meme(hash)))]
    && e.curves == d.curves && e.stakes == d.stakes
  }

  lemma FeesBurned(d: Database, id: string, creator: Signer, height: nat)
    requires Run(d, FinishFees(id, creator), height).Ok?
    ensures var f := Run(d, FinishFees(id, creator), height).value;
            && (forall t, a :: Bal(f, t, a) == Bal(d, t, a) - if t == WDOGE && a == PumpReserves(id) then 110000000000 else 0)
            && (forall t :: Issued(f, t) == Issued(d, t) - if t == WDOGE then 110000000000 else 0)
            && f == d.(drc20 := f.drc20, meme20 := f.meme20)
  {
    hide Run, Total, SupplyTotal, Bal, Issued;
    var s := FinishFees(id, creator);
    var f := Run(d, s, height).value;
    forall t: Tick, a: Address
      ensures Bal(f, t, a) == Bal(d, t, a) - if t == WDOGE && a == PumpReserves(id) then 110000000000 else 0
    {
      RunEffect(d, s, height, t, a);
      Total4(s[0], s[1], s[2], s[3], t, a);
    }
    forall t: Tick
      ensures Issued(f, t) == Issued(d, t) - if t == WDOGE then 110000000000 else 0
    {
      RunEffect(d, s, height, t, creator);
      Total4(s[0], s[1], s[2], s[3], t, creator);
    }
    LedgerlyRun(d, s, height);
  }

  lemma FinishPays(d: Database, hash: string, id: string, creator: Signer, height: nat)
    requires Finish(d, hash, id, creator, height).Ok?
    ensures var e := Finish(d, hash, id, creator, height).value;
            var memes, wdoge := Bal(d, Meme(id), PumpReserves(id)), Bal(d, WDOGE, PumpReserves(id));
            var base := Issued(e, Meme(hash));
            && base * base <= memes * (wdoge - 110000000000) < (base + 1) * (base + 1)
            && Graduates(d, e, id, hash, memes, wdoge, base)
  {
    hide Run, Bal, Issued, CreateScript, FinishFees;
    FeesBurned(d, id, creator, height);
    var paid := Run(d, FinishFees(id, creator), height).value;
    var memes, wdoge := Bal(paid, Meme(id), PumpReserves(id)), Bal(paid, WDOGE, PumpReserves(id));
    CreateScriptPays(paid, PumpReserves(id), V2(hash), Meme(id), WDOGE, memes, wdoge, height);
  }

  // ---------------------------------------------------------------------------------------------------------------
  // A purchase, with the graduation it may trigger
  // ---------------------------------------------------------------------------------------------------------------

  /** An accepted purchase: below the graduation mark it is the trade alone, from the mark on the trade and the
      graduation of all that is then on the curve. */
  ghost predicate BuysAll(d: Database, e: Database, hash: string, trader: Signer, id: string, amt: int, out: int)
    requires id in d.curves
  {
    var c := d.curves[id];
    if c.amt1 + (amt - amt / 100) < 10300000000000 then Buys(d, e, trader, id, amt, out)
    else
      exists mid :: BuysThenGraduates(d, mid, e, hash, trader, id, amt, out)
  }

  ghost predicate BuysThenGraduates(d: Database, mid: Database, e: Database, hash: string, trader: Signer, id: string,
                                    amt: int, out: int)
    requires id in d.curves
  {
    var memes, wdoge := d.curves[id].amt0 - out, d.curves[id].amt1 + (amt - amt / 100) - 300000000000;
    var base := Issued(e, Meme(hash));
    && Buys(d, mid, trader, id, amt, out)
    && base * base <= memes * (wdoge - 110000000000) < (base + 1) * (base + 1)
    && Graduates(mid, e, id, hash, memes, wdoge, base)
  }

  /** Whether a curve's purchase of `out` for `amt` can be made by somebody with `held` WDOGE. */
  ghost predicate CanBuy(d: Database, hash: string, trader: Signer, id: string, amt: int, out: int, held: int)
    requires id in d.curves
  {
    && amt >= 1 && 1 <= out && trader != TX_FEE
    && FeesMove(d, trader, amt / 100)
    && amt - FeeBack(d, trader, amt / 100) <= held
    && (d.curves[id].amt1 + (amt - amt / 100) >= 10300000000000 ==> V2(hash) !in d.pools && Meme(hash) !in d.meme20.tokens)
  }

  lemma PurchaseIff(d: Database, hash: string, trader: Signer, id: string, amt: nat, height: nat, out: nat)
    requires Safe(d) && InvitersTidy(d) && amt > 0 && id in d.curves && CurveInv(d, id) && d.curves[id].amt1 < CLOSED_AT
    requires FloorOf(out, (amt - amt / 100) * d.curves[id].amt0, d.curves[id].amt1 + (amt - amt / 100))
    ensures TradeCurve(d, hash, trader, id, true, amt, height).Ok? <==>
            CanBuy(d, hash, trader, id, amt, out, Bal(d, WDOGE, trader))
    ensures TradeCurve(d, hash, trader, id, true, amt, height).Ok? ==>
              BuysAll(d, TradeCurve(d, hash, trader, id, true, amt, height).value, hash, trader, id, amt, out)
  {
    hide Run, Finish, TradeCurve, TradeScript, Safe, InvitersTidy, CurveInv, Bal, Issued, Out, Buys, Graduates, FeesMove,
         FeeBack;
    var c, x := d.curves[id], amt - amt / 100;
    OutIs(x, c.amt1, c.amt0);
    FloorUnique(out, Out(x, c.amt1, c.amt0), x * c.amt0, c.amt1 + x);
    MemesThere(d, id, x);
    TradeRuns(d, hash, trader, id, true, amt, height);
    BuyIff(d, trader, id, amt, height);
    if Run(d, TradeScript(d, trader, id, true, amt), height).Ok? {
      var traded := Run(d, TradeScript(d, trader, id, true, amt), height).value;
      ReachesMark(d, trader, id, true, amt, height);
      BuyChanges(d, trader, id, amt, out, height);
      if Bal(traded, WDOGE, PumpReserves(id)) >= DOGE_MAX {
        Reached(d, traded, hash, trader, id, amt, out, height);
      }
    }
  }

  lemma MemesThere(d: Database, id: string, x: nat)
    requires x > 0 && id in d.curves && CurveInv(d, id) && d.curves[id].amt1 < CLOSED_AT
    ensures Out(x, d.curves[id].amt1, d.curves[id].amt0) <= Bal(d, Meme(id), PumpReserves(id))
  {
    hide Out, Bal;
    OutKeepsProduct(x, d.curves[id].amt1, d.curves[id].amt0);
  }

  lemma Reached(d: Database, traded: Database, hash: string, trader: Signer, id: string, amt: nat, out: nat, height: nat)
    requires Safe(d) && id in d.curves && amt > 0 && Buys(d, traded, trader, id, amt, out)
    requires Run(d, TradeScript(d, trader, id, true, amt), height) == Ok(traded)
    requires id in traded.curves && CurveInv(traded, id) && Backed(traded, id)
    requires Bal(traded, WDOGE, PumpReserves(id)) >= DOGE_MAX
    ensures var f := Finish(traded, hash, id, d.curves[id].creator, height);
            && (f.Ok? <==> V2(hash) !in d.pools && Meme(hash) !in d.meme20.tokens)
            && (f.Ok? ==> BuysThenGraduates(d, traded, f.value, hash, trader, id, amt, out))
  {
    hide Run, Finish, TradeScript, ConservedAll, CurveInv, Bal, Issued, FeePaid, Graduates;
    var script := TradeScript(d, trader, id, true, amt);
    SafeConserves(d);
    RunConserves(d, script, height);
    BackedMemes(traded, id);
    var f := Finish(traded, hash, id, d.curves[id].creator, height);
    if f.Ok? {
      FinishFresh(traded, hash, id, d.curves[id].creator, height);
      FinishPays(traded, hash, id, d.curves[id].creator, height);
    } else if V2(hash) !in d.pools && Meme(hash) !in d.meme20.tokens {
      GraduationSucceeds(traded, hash, id, d.curves[id].creator, height);
    }
  }

  lemma BackedMemes(d: Database, id: string)
    requires id in d.curves && Backed(d, id)
    ensures Bal(d, Meme(id), PumpReserves(id)) == d.curves[id].amt0 >= 1
    ensures Bal(d, WDOGE, PumpReserves(id)) == d.curves[id].amt1 - 300000000000
  {}

  // ---------------------------------------------------------------------------------------------------------------
  // Whole transactions
  // ---------------------------------------------------------------------------------------------------------------

  /** The mark of a trade that went through. */
  lemma MarkGoes(d: Database, hash: string, height: nat)
    ensures Run(d, [MarkTraded(hash)], height).Ok? <==> OnRecord(d, hash, height)
    ensures Run(d, [MarkTraded(hash)], height).Ok? ==>
              var e := Run(d, [MarkTraded(hash)], height).value; e == d.(infos := e.infos)
  {
    assert [MarkTraded(hash)] == [MarkTraded(hash)] + [];
    RunFirst(d, MarkTraded(hash), [], height);
  }

  lemma TradeKeepsRecord(d: Database, hash: string, trader: Signer, id: string, buy: bool, amt: nat, height: nat)
    requires amt > 0 && TradeCurve(d, hash, trader, id, buy, amt, height).Ok?
    ensures OnRecord(TradeCurve(d, hash, trader, id, buy, amt, height).value, hash, height) <==> OnRecord(d, hash, height)
  {
    hide TradeCurve;
    var script := TradeIsRun(d, hash, trader, id, buy, amt, height, PumpOp(Deploy(0, 0, false)));
    RunInfos(d, script, height);
  }

  lemma SameInfos(d: Database, e: Database)
    requires e == d.(infos := e.infos)
    ensures forall t, a :: Bal(e, t, a) == Bal(d, t, a)
    ensures forall t :: Issued(e, t) == Issued(d, t)
  {}

  /** The coins of a pump transaction that was accepted: in before it, out after it. */
  ghost predicate WithCoins(m: Database, trader: Address, coins: int, e: Database) {
    && (forall t, a :: Bal(e, t, a) == Bal(m, t, a) + if t == WDOGE && a == trader then coins else 0)
    && (forall t :: Issued(e, t) == Issued(m, t) + if t == WDOGE then coins else 0)
    && e.pools == m.pools && e.curves == m.curves && e.stakes == m.stakes
  }

  /** Whether a sale of `amt` for `out` can be made. */
  ghost predicate CanSell(d: Database, hash: string, trader: Signer, id: string, amt: int, out: int, height: nat) {
    && amt >= 1 && id in d.curves && d.curves[id].amt1 < 3300000000000
    && FirstToday(d, Protocol.Pump, trader, height) && OnRecord(d, hash, height)
    && amt <= Bal(d, Meme(id), trader)
    && 0 <= out <= d.curves[id].amt1 - 300000000000
    && FeesMove(d, trader, out / 100)
  }

  /** A sale, with coins or without: if it can be made, the seller loses the memes and gets the product formula's floor
      less a hundredth of it, the fee address that hundredth and the seller's inviter half of it; the seller's part
      leaves as coins if that was asked for. If it cannot be made nothing happens. */
  lemma SaleRouted(d: Database, hash: string, trader: Signer, id: string, amt: int, doge: bool, height: nat, out: nat)
    requires Safe(d) && InvitersTidy(d) && CurveInv(d, id)
    requires id in d.curves && amt >= 1 ==> FloorOf(out, amt * d.curves[id].amt1, d.curves[id].amt0 + amt)
    ensures var e := PumpTx(d, hash, trader, Trade(id, Meme(id), amt, doge), height);
            if CanSell(d, hash, trader, id, amt, out, height) then
              && id in d.curves
              && exists m :: Sells(d, m, trader, id, amt, out)
                          && WithCoins(m, trader, if doge then out / 100 - out else 0, e)
            else e == d
  {
    hide Safe, InvitersTidy, CurveInv, Bal, Issued, Run, TradeCurve, TradeVerified, PayOut, Sells, FeesMove, FirstToday, OnRecord,
         Out, CanSell;
    VerifiedIs(d, trader, id, Meme(id), amt, height);
    if amt >= 1 && id in d.curves && d.curves[id].amt1 < CLOSED_AT {
      OutIs(amt, d.curves[id].amt0, d.curves[id].amt1);
      FloorUnique(out, Out(amt, d.curves[id].amt0, d.curves[id].amt1), amt * d.curves[id].amt1, d.curves[id].amt0 + amt);
      SaleCurve(d, hash, trader, id, amt, height, out);
      if TradeVerified(d, trader, id, Meme(id), amt, height) && TradeCurve(d, hash, trader, id, false, amt, height).Ok? {
        SaleCloses(d, hash, trader, id, amt, doge, height, out);
      }
    }
    SellNeeds(d, hash, trader, id, amt, height, out);
  }

  lemma SellNeeds(d: Database, hash: string, trader: Signer, id: string, amt: int, height: nat, out: nat)
    ensures CanSell(d, hash, trader, id, amt, out, height) <==>
            && amt >= 1 && id in d.curves && d.curves[id].amt1 < CLOSED_AT
            && FirstToday(d, Protocol.Pump, trader, height) && OnRecord(d, hash, height)
            && amt <= Bal(d, Meme(id), trader)
            && 0 <= out <= d.curves[id].amt1 - DOGE_INIT
            && FeesMove(d, trader, out / 100)
  {
    hide FirstToday, OnRecord, FeesMove, Bal;
  }

  lemma VerifiedIs(d: Database, trader: Signer, id: string, input: Tick, amt: int, height: nat)
    ensures TradeVerified(d, trader, id, input, amt, height) <==>
            && amt >= 1 && id in d.curves && d.curves[id].amt1 < CLOSED_AT
            && FirstToday(d, Protocol.Pump, trader, height) && (input == Meme(id) || input == WDOGE)
  {}

  lemma SaleCurve(d: Database, hash: string, trader: Signer, id: string, amt: nat, height: nat, out: nat)
    requires InvitersTidy(d) && amt >= 1 && id in d.curves && CurveInv(d, id) && d.curves[id].amt1 < CLOSED_AT
    requires out == Out(amt, d.curves[id].amt0, d.curves[id].amt1)
    ensures var r := TradeCurve(d, hash, trader, id, false, amt, height);
            && (r.Ok? <==> amt <= Bal(d, Meme(id), trader) && out <= d.curves[id].amt1 - DOGE_INIT
                           && FeesMove(d, trader, out / 100))
            && (r.Ok? ==> Sells(d, r.value, trader, id, amt, out)
                          && r == Run(d, TradeScript(d, trader, id, false, amt), height))
  {
    hide InvitersTidy, CurveInv, Bal, Run, TradeCurve, TradeScript, FeesMove, Out, Sells, Finish;
    TradeRuns(d, hash, trader, id, false, amt, height);
    SaleIff(d, trader, id, amt, height);
    OpenBacked(d, id);
    if Run(d, TradeScript(d, trader, id, false, amt), height).Ok? {
      ReachesMark(d, trader, id, false, amt, height);
      SellChanges(d, trader, id, amt, out, height);
    }
  }

  lemma OpenBacked(d: Database, id: string)
    requires id in d.curves && CurveInv(d, id) && d.curves[id].amt1 < CLOSED_AT
    ensures Bal(d, WDOGE, PumpReserves(id)) == d.curves[id].amt1 - DOGE_INIT
  {}

  lemma SaleCloses(d: Database, hash: string, trader: Signer, id: string, amt: nat, doge: bool, height: nat, out: nat)
    requires Safe(d) && amt >= 1 && id in d.curves && TradeCurve(d, hash, trader, id, false, amt, height).Ok?
    requires out == Out(amt, d.curves[id].amt0, d.curves[id].amt1)
    requires var m := TradeCurve(d, hash, trader, id, false, amt, height).value;
             Sells(d, m, trader, id, amt, out) && Run(d, TradeScript(d, trader, id, false, amt), height) == Ok(m)
    requires TradeVerified(d, trader, id, Meme(id), amt, height)
    ensures var r := TradeOrder(d, hash, trader, id, Meme(id), amt, doge, height);
            && (r.Ok? <==> OnRecord(d, hash, height))
            && (r.Ok? ==> WithCoins(TradeCurve(d, hash, trader, id, false, amt, height).value, trader,
                                    if doge then out / 100 - out else 0, r.value))
  {
    hide Safe, TradeCurve, TradeScript, Run, TradeVerified, PayOut, Out, Bal, Issued, OnRecord;
    var m := TradeCurve(d, hash, trader, id, false, amt, height).value;
    TradeKeepsRecord(d, hash, trader, id, false, amt, height);
    MarkGoes(m, hash, height);
    if OnRecord(d, hash, height) {
      var marked := Run(m, [MarkTraded(hash)], height).value;
      SafeConserves(d);
      RunConserves(d, TradeScript(d, trader, id, false, amt), height);
      RunConserves(m, [MarkTraded(hash)], height);
      SameInfos(m, marked);
      SellerHolds(d, m, trader, id, amt, out);
      PaidOut(marked, trader, if doge then out - out / 100 else 0, height);
    }
  }

  lemma SellerHolds(d: Database, m: Database, trader: Signer, id: string, amt: nat, out: nat)
    requires id in d.curves && Sells(d, m, trader, id, amt, out)
    ensures out - out / 100 <= Bal(m, WDOGE, trader)
  {
    hide Bal;
    assert Bal(m, WDOGE, trader) == Bal(d, WDOGE, trader) + Paid(WDOGE, trader, Meme(id), trader, PumpReserves(id), amt)
                                    + FeePaid(d, trader, PumpReserves(id), out / 100, WDOGE, trader)
                                    + Paid(WDOGE, trader, WDOGE, PumpReserves(id), trader, out - out / 100);
  }

  /** Whether a purchase of `out` for `amt` can be made, with `coins` of the amount coming in with the transaction. */
  ghost predicate CanTrade(d: Database, hash: string, trader: Signer, id: string, amt: int, out: int, coins: int, height: nat) {
    && amt >= 1 && id in d.curves && d.curves[id].amt1 < 3300000000000
    && FirstToday(d, Protocol.Pump, trader, height) && OnRecord(d, hash, height)
    && CanBuy(d, hash, trader, id, amt, out, Bal(d, WDOGE, trader) + coins)
  }

  /** A purchase, with coins or without: if it can be made, the trader pays a hundredth to the fee address (half of it
      on to the trader's inviter) and the rest to the curve, and gets the product formula's floor in memes; and from the
      graduation mark on the curve graduates. If it cannot, the coins stay with the trader as WDOGE. */
  lemma BuyRouted(d: Database, hash: string, trader: Signer, id: string, amt: int, doge: bool, height: nat, out: nat)
    requires Safe(d) && InvitersTidy(d) && CurveInv(d, id) && WDOGE in d.drc20.tokens
    requires id in d.curves && amt >= 1 ==>
               FloorOf(out, (amt - amt / 100) * d.curves[id].amt0, d.curves[id].amt1 + (amt - amt / 100))
    ensures var e := PumpTx(d, hash, trader, Trade(id, WDOGE, amt, doge), height);
            var coins := if doge && amt > 0 then amt else 0;
            if CanTrade(d, hash, trader, id, amt, out, coins, height) then
              && id in d.curves
              && exists f, m :: Coined(d, f, trader, coins) && f.curves == d.curves
                             && BuysAll(f, m, hash, trader, id, amt, out) && WithCoins(m, trader, 0, e)
            else Coined(d, e, trader, coins)
  {
    hide Safe, InvitersTidy, CurveInv, Bal, Issued, Run, TradeCurve, TradeVerified, PayIn, PayOut, BuysAll, CanBuy, FirstToday,
         OnRecord, Out, Coined, WithCoins, Keeps, CurveKept, TradeOrder;
    var coins := if doge && amt > 0 then amt else 0;
    var dep := if doge then amt else 0;
    PaidIn(d, trader, dep, height);
    var f := PayIn(d, trader, dep, height).value;
    PaysSafe(d, trader, dep, height);
    KeepsSafe(d, f, true);
    PaysCurve(d, trader, dep, height, id);
    FundedFacts(d, f, trader, coins, hash, id, amt, out, height);
    VerifiedIs(f, trader, id, WDOGE, amt, height);
    if amt >= 1 && id in f.curves && f.curves[id].amt1 < CLOSED_AT {
      PurchaseIff(f, hash, trader, id, amt, height, out);
      if TradeVerified(f, trader, id, WDOGE, amt, height) {
        BuyCloses(f, hash, trader, id, amt, doge, height);
      }
    }
    BuyOrderFails(f, hash, trader, id, amt, doge, height);
    if CanTrade(d, hash, trader, id, amt, out, coins, height) {
      var m := TradeCurve(f, hash, trader, id, true, amt, height).value;
      assert BuysAll(f, m, hash, trader, id, amt, out);
      assert WithCoins(m, trader, 0, PumpTx(d, hash, trader, Trade(id, WDOGE, amt, doge), height));
    }
  }

  lemma BuyOrderFails(f: Database, hash: string, trader: Signer, id: string, amt: int, doge: bool, height: nat)
    ensures !TradeVerified(f, trader, id, WDOGE, amt, height) ==>
              TradeOrder(f, hash, trader, id, WDOGE, amt, doge, height) == Failed
    ensures TradeVerified(f, trader, id, WDOGE, amt, height) ==> amt >= 1 && id in f.curves && f.curves[id].amt1 < CLOSED_AT
  {
    hide TradeCurve;
  }

  lemma FundedFacts(d: Database, f: Database, trader: Signer, coins: int, hash: string, id: string, amt: int, out: int,
                    height: nat)
    requires Coined(d, f, trader, coins) && InvitersTidy(d)
    ensures InvitersTidy(f) && f.curves == d.curves
    ensures FirstToday(f, Protocol.Pump, trader, height) <==> FirstToday(d, Protocol.Pump, trader, height)
    ensures OnRecord(f, hash, height) <==> OnRecord(d, hash, height)
    ensures Bal(f, WDOGE, trader) == Bal(d, WDOGE, trader) + coins
    ensures id in d.curves ==> forall held :: CanBuy(f, hash, trader, id, amt, out, held) <==>
                                              CanBuy(d, hash, trader, id, amt, out, held)
  {
    hide Bal, Issued;
  }

  lemma BuyCloses(f: Database, hash: string, trader: Signer, id: string, amt: nat, doge: bool, height: nat)
    requires amt >= 1 && TradeVerified(f, trader, id, WDOGE, amt, height)
    ensures var t := TradeCurve(f, hash, trader, id, true, amt, height);
            var r := TradeOrder(f, hash, trader, id, WDOGE, amt, doge, height);
            && (r.Ok? <==> t.Ok? && OnRecord(f, hash, height))
            && (r.Ok? ==> WithCoins(t.value, trader, 0, r.value))
  {
    hide TradeCurve, Run, TradeVerified, Bal, Issued, OnRecord;
    if TradeCurve(f, hash, trader, id, true, amt, height).Ok? {
      var m := TradeCurve(f, hash, trader, id, true, amt, height).value;
      TradeKeepsRecord(f, hash, trader, id, true, amt, height);
      MarkGoes(m, hash, height);
      if OnRecord(f, hash, height) {
        SameInfos(m, Run(m, [MarkTraded(hash)], height).value);
      }
    }
  }

  // ---------------------------------------------------------------------------------------------------------------
  // Deploys
  // ---------------------------------------------------------------------------------------------------------------

  /** A new curve: of 1e17 memes the creator gets the reserve's percentage and the curve the rest, against 3e11 WDOGE
      that are not there. */
  ghost predicate Opens(d: Database, e: Database, id: string, creator: Signer, reserve: int) {
    var unit := 1000000000000000;
    && (forall t, a :: Bal(e, t, a) == Bal(d, t, a) + (if t == Meme(id) && a == creator then reserve * unit else 0)
                                       + (if t == Meme(id) && a == PumpReserves(id) then (100 - reserve) * unit else 0))
    && (forall t :: Issued(e, t) == Issued(d, t) + if t == Meme(id) then 100 * unit else 0)
    && 0 <= reserve <= 100
    && e.curves == d.curves[id := Curve((100 - reserve) * unit, 300000000000, creator)]
    && e.pools == d.pools && e.stakes == d.stakes && e.infos == d.infos && e.inviters == d.inviters
    && e.drc20.tokens.Keys == d.drc20.tokens.Keys && e.meme20.tokens.Keys == d.meme20.tokens.Keys + {Meme(id)}
  }

  lemma OpenPays(d: Database, id: string, creator: Signer, reserve: nat, height: nat)
    requires reserve <= 99
    ensures Apply(d, OpenCurve(id, creator, reserve), height).Ok? <==> id !in d.curves && Meme(id) !in d.meme20.tokens
    ensures Apply(d, OpenCurve(id, creator, reserve), height).Ok? ==>
              Opens(d, Apply(d, OpenCurve(id, creator, reserve), height).value, id, creator, reserve)
  {
    hide Bal, Issued, Delta, SupplyDelta;
    var s := OpenCurve(id, creator, reserve);
    OpenRows(d, id, creator, reserve, height);
    if Apply(d, s, height).Ok? {
      hide Apply;
      var e := Apply(d, s, height).value;
      forall t: Tick, a: Address
        ensures Bal(e, t, a) == Bal(d, t, a) + (if t == Meme(id) && a == creator then reserve * 1000000000000000 else 0)
                                + (if t == Meme(id) && a == PumpReserves(id) then (100 - reserve) * 1000000000000000 else 0)
      {
        StepEffect(d, s, height, t, a);
        SharesAre(id, creator, reserve, t, a);
      }
      forall t: Tick
        ensures Issued(e, t) == Issued(d, t) + if t == Meme(id) then 100000000000000000 else 0
      {
        StepEffect(d, s, height, t, creator);
        SharesAre(id, creator, reserve, t, creator);
      }
    }
  }

  lemma SharesAre(id: string, creator: Signer, reserve: nat, t: Tick, a: Address)
    requires reserve <= 99
    ensures Delta(OpenCurve(id, creator, reserve), t, a) ==
            (if t == Meme(id) && a == creator then reserve * 1000000000000000 else 0)
            + (if t == Meme(id) && a == PumpReserves(id) then (100 - reserve) * 1000000000000000 else 0)
    ensures SupplyDelta(OpenCurve(id, creator, reserve), t) == if t == Meme(id) then 100000000000000000 else 0
  {}

  lemma OpenRows(d: Database, id: string, creator: Signer, reserve: nat, height: nat)
    requires reserve <= 99
    ensures Apply(d, OpenCurve(id, creator, reserve), height).Ok? <==> id !in d.curves && Meme(id) !in d.meme20.tokens
    ensures Apply(d, OpenCurve(id, creator, reserve), height).Ok? ==>
              var e := Apply(d, OpenCurve(id, creator, reserve), height).value;
              && e.curves == d.curves[id := Curve((100 - reserve) * 1000000000000000, 300000000000, creator)]
              && e.pools == d.pools && e.stakes == d.stakes && e.infos == d.infos && e.inviters == d.inviters
              && e.drc20.tokens.Keys == d.drc20.tokens.Keys && e.meme20.tokens.Keys == d.meme20.tokens.Keys + {Meme(id)}
  {
    hide CurveToken;
    assert d.meme20.tokens[Meme(id) := CurveToken(id, creator, reserve)].Keys
           == d.meme20.tokens.Keys + {Meme(id)};
  }

  /** Whether a deploy is accepted: a reserve up to 99 or a first purchase up to 5e11, not both, under a new name; `out`
      is what the first purchase buys of a new curve. */
  ghost predicate CanDeploy(d: Database, hash: string, creator: Signer, reserve: int, firstBuy: int, out: int, held: int) {
    && 0 <= reserve <= 99 && (reserve == 0 || firstBuy <= 0) && firstBuy <= 500000000000
    && hash !in d.curves && Meme(hash) !in d.meme20.tokens
    && (firstBuy > 0 ==>
          && 1 <= out && creator != TX_FEE
          && FeesMove(d, creator, firstBuy / 100)
          && firstBuy - FeeBack(d, creator, firstBuy / 100) <= held)
  }

  /** A deploy, with coins or without: if it is accepted the curve opens, and the creator's first purchase is made on it
      like any other; if not, the coins stay with the creator as WDOGE. */
  lemma DeployRouted(d: Database, hash: string, creator: Signer, reserve: int, firstBuy: int, doge: bool, height: nat, out: nat)
    requires Safe(d) && InvitersTidy(d) && CurveInv(d, hash) && WDOGE in d.drc20.tokens
    requires firstBuy >= 1 ==>
               FloorOf(out, (firstBuy - firstBuy / 100) * 100000000000000000, 300000000000 + (firstBuy - firstBuy / 100))
    ensures var e := PumpTx(d, hash, creator, Deploy(reserve, firstBuy, doge), height);
            var coins := if doge && firstBuy > 0 then firstBuy else 0;
            if CanDeploy(d, hash, creator, reserve, firstBuy, out, Bal(d, WDOGE, creator) + coins) then
              exists f, g :: Coined(d, f, creator, coins) && Opens(f, g, hash, creator, reserve)
                          && hash in g.curves
                          && if firstBuy > 0 then Buys(g, e, creator, hash, firstBuy, out) else e == g
            else Coined(d, e, creator, coins)
  {
    hide Safe, InvitersTidy, CurveInv, Bal, Issued, Run, PayIn, Coined, Keeps, CurveKept, DeployOrder, Buys, Opens, FeesMove,
         FeeBack;
    var coins := if doge && firstBuy > 0 then firstBuy else 0;
    var dep := if doge then firstBuy else 0;
    PaidIn(d, creator, dep, height);
    var f := PayIn(d, creator, dep, height).value;
    PaysSafe(d, creator, dep, height);
    KeepsSafe(d, f, true);
    PaysCurve(d, creator, dep, height, hash);
    FundedFacts(d, f, creator, coins, hash, hash, firstBuy, out, height);
    DeployIff(f, hash, creator, reserve, firstBuy, height, out);
    FundedDeploy(d, f, hash, creator, reserve, firstBuy, out, coins);
  }

  lemma FundedDeploy(d: Database, f: Database, hash: string, creator: Signer, reserve: int, firstBuy: int, out: int, coins: int)
    requires Coined(d, f, creator, coins)
    ensures CanDeploy(f, hash, creator, reserve, firstBuy, out, Bal(f, WDOGE, creator)) <==>
            CanDeploy(d, hash, creator, reserve, firstBuy, out, Bal(d, WDOGE, creator) + coins)
  {
    hide Bal, Issued;
  }

  lemma DeployIff(d: Database, hash: string, creator: Signer, reserve: int, firstBuy: int, height: nat, out: nat)
    requires Safe(d) && InvitersTidy(d) && CurveInv(d, hash)
    requires firstBuy >= 1 ==>
               FloorOf(out, (firstBuy - firstBuy / 100) * 100000000000000000, 300000000000 + (firstBuy - firstBuy / 100))
    ensures DeployOrder(d, hash, creator, reserve, firstBuy, height).Ok? <==>
            CanDeploy(d, hash, creator, reserve, firstBuy, out, Bal(d, WDOGE, creator))
    ensures DeployOrder(d, hash, creator, reserve, firstBuy, height).Ok? ==>
              exists g :: Opens(d, g, hash, creator, reserve) && hash in g.curves
                       && var e := DeployOrder(d, hash, creator, reserve, firstBuy, height).value;
                          if firstBuy > 0 then Buys(g, e, creator, hash, firstBuy, out) else e == g
  {
    hide Safe, InvitersTidy, CurveInv, Bal, Issued, Apply, TradeCurve, Buys, FeesMove, FeeBack;
    if 0 <= reserve <= 99 {
      var s := OpenCurve(hash, creator, reserve);
      OpenPays(d, hash, creator, reserve, height);
      assert [s] == [s] + [];
      RunFirst(d, s, [], height);
      if Apply(d, s, height).Ok? {
        var g := Apply(d, s, height).value;
        if firstBuy > 0 && reserve == 0 && firstBuy <= 500000000000 {
          FirstPurchase(d, g, hash, creator, firstBuy, height, out);
        }
      }
    }
  }

  lemma FirstPurchase(d: Database, g: Database, hash: string, creator: Signer, firstBuy: nat, height: nat, out: nat)
    requires Safe(d) && InvitersTidy(d) && CurveInv(d, hash) && 0 < firstBuy <= 500000000000
    requires Apply(d, OpenCurve(hash, creator, 0), height) == Ok(g) && Opens(d, g, hash, creator, 0)
    requires FloorOf(out, (firstBuy - firstBuy / 100) * 100000000000000000, 300000000000 + (firstBuy - firstBuy / 100))
    ensures hash in g.curves
    ensures var r := TradeCurve(g, hash, creator, hash, true, firstBuy, height);
            && (r.Ok? <==> && 1 <= out && creator != TX_FEE && FeesMove(d, creator, firstBuy / 100)
                           && firstBuy - FeeBack(d, creator, firstBuy / 100) <= Bal(d, WDOGE, creator))
            && (r.Ok? ==> Buys(g, r.value, creator, hash, firstBuy, out))
  {
    hide Safe, CurveInv, Bal, Issued, Apply, TradeCurve, Buys, PoolInv, BuysThenGraduates;
    PoolOfSafe(d, V2(hash));
    OpenedCurve(d, hash, creator, 0, height);
    var s := OpenCurve(hash, creator, 0);
    assert [s] == [s] + [];
    RunFirst(d, s, [], height);
    assert Elsewhere(s) && NoGift(s);
    ElsewhereKeeps(d, [s], height, true);
    KeepsSafe(d, g, true);
    assert Bal(g, WDOGE, creator) == Bal(d, WDOGE, creator);
    PurchaseIff(g, hash, creator, hash, firstBuy, height, out);
  }

  // ---------------------------------------------------------------------------------------------------------------
  // As they are scanned
  // ---------------------------------------------------------------------------------------------------------------

  lemma RecordedFacts(d: Database, tx: Tx, height: nat, id: string)
    requires Safe(d) && InvitersTidy(d) && CurveInv(d, id) && tx.op.PumpOp? && tx.hash !in d.infos
    ensures var r := Recorded(d, tx, height);
            && Safe(r) && InvitersTidy(r) && CurveInv(r, id) && OnRecord(r, tx.hash, height)
            && (FirstToday(r, Protocol.Pump, tx.holder, height) <==> FirstToday(d, Protocol.Pump, tx.holder, height))
            && ExecuteTx(d, tx, height) == PumpTx(r, tx.hash, tx.holder, tx.op.order, height)
  {
    hide Safe, CurveInv, FirstToday, Keeps, CurveKept, PumpTx;
    RecordedKeeps(d, tx, height, false);
    KeepsSafe(d, Recorded(d, tx, height), false);
    RecordedCurve(d, tx, height, id);
    RecordedToday(d, tx, height);
    Itself(d, tx, height);
  }

  /** A sale as a transaction, from the tables with its row. */
  lemma SaleTx(d: Database, tx: Tx, id: string, amt: int, doge: bool, height: nat, out: nat)
    requires Safe(d) && InvitersTidy(d) && CurveInv(d, id) && tx.hash !in d.infos
    requires tx.op == PumpOp(Trade(id, Meme(id), amt, doge))
    requires id in d.curves && amt >= 1 ==> FloorOf(out, amt * d.curves[id].amt1, d.curves[id].amt0 + amt)
    ensures var r, e := Recorded(d, tx, height), ExecuteTx(d, tx, height);
            if CanSell(r, tx.hash, tx.holder, id, amt, out, height) then
              && id in d.curves
              && exists m :: Sells(r, m, tx.holder, id, amt, out)
                          && WithCoins(m, tx.holder, if doge then out / 100 - out else 0, e)
            else e == r
  {
    hide Safe, InvitersTidy, CurveInv, PumpTx, Sells, WithCoins, CanSell, FirstToday, OnRecord, ExecuteTx;
    RecordedFacts(d, tx, height, id);
    SaleRouted(Recorded(d, tx, height), tx.hash, tx.holder, id, amt, doge, height, out);
  }

  /** A purchase as a transaction. */
  lemma BuyTx(d: Database, tx: Tx, id: string, amt: int, doge: bool, height: nat, out: nat)
    requires Safe(d) && InvitersTidy(d) && CurveInv(d, id) && WDOGE in d.drc20.tokens && tx.hash !in d.infos
    requires tx.op == PumpOp(Trade(id, WDOGE, amt, doge))
    requires id in d.curves && amt >= 1 ==>
               FloorOf(out, (amt - amt / 100) * d.curves[id].amt0, d.curves[id].amt1 + (amt - amt / 100))
    ensures var r, e := Recorded(d, tx, height), ExecuteTx(d, tx, height);
            var coins := if doge && amt > 0 then amt else 0;
            if CanTrade(r, tx.hash, tx.holder, id, amt, out, coins, height) then
              && id in d.curves
              && exists f, m :: Coined(r, f, tx.holder, coins) && f.curves == r.curves
                             && BuysAll(f, m, tx.hash, tx.holder, id, amt, out) && WithCoins(m, tx.holder, 0, e)
            else Coined(r, e, tx.holder, coins)
  {
    hide Safe, InvitersTidy, CurveInv, PumpTx, BuysAll, WithCoins, CanTrade, Coined, FirstToday, OnRecord, ExecuteTx;
    RecordedFacts(d, tx, height, id);
    BuyRouted(Recorded(d, tx, height), tx.hash, tx.holder, id, amt, doge, height, out);
  }

  /** A deploy as a transaction. */
  lemma DeployTx(d: Database, tx: Tx, reserve: int, firstBuy: int, doge: bool, height: nat, out: nat)
    requires Safe(d) && InvitersTidy(d) && CurveInv(d, tx.hash) && WDOGE in d.drc20.tokens && tx.hash !in d.infos
    requires tx.op == PumpOp(Deploy(reserve, firstBuy, doge))
    requires firstBuy >= 1 ==>
               FloorOf(out, (firstBuy - firstBuy / 100) * 100000000000000000, 300000000000 + (firstBuy - firstBuy / 100))
    ensures var r, e := Recorded(d, tx, height), ExecuteTx(d, tx, height);
            var coins := if doge && firstBuy > 0 then firstBuy else 0;
            if CanDeploy(r, tx.hash, tx.holder, reserve, firstBuy, out, Bal(r, WDOGE, tx.holder) + coins) then
              exists f, g :: Coined(r, f, tx.holder, coins) && Opens(f, g, tx.hash, tx.holder, reserve)
                          && tx.hash in g.curves
                          && if firstBuy > 0 then Buys(g, e, tx.holder, tx.hash, firstBuy, out) else e == g
            else Coined(r, e, tx.holder, coins)
  {
    hide Safe, InvitersTidy, CurveInv, PumpTx, Opens, Buys, CanDeploy, Coined, FirstToday, OnRecord, ExecuteTx, Bal;
    RecordedFacts(d, tx, height, tx.hash);
    DeployRouted(Recorded(d, tx, height), tx.hash, tx.holder, reserve, firstBuy, doge, height, out);
  }

  /** A trade in neither of the curve's two tokens does nothing. */
  lemma StrayTx(d: Database, tx: Tx, id: string, input: Tick, amt: int, doge: bool, height: nat)
    requires tx.hash !in d.infos && tx.op == PumpOp(Trade(id, input, amt, doge)) && input != Meme(id) && input != WDOGE
    ensures ExecuteTx(d, tx, height) == Recorded(d, tx, height)
  {
    hide TradeCurve, TradedAlready;
  }
}
