/** The bonding curve over every run without direct payments to a curve's address: what backs it, that its product never
    falls, and exactly when every sale is covered. */
module PumpSafety {
  import opened Results
  import opened Names
  import opened Ledger
  import opened Db
  import opened Quotes
  import opened Swap
  import opened Pump
  import opened Dispatching
  import opened Effects
  import opened PoolSafety
  import opened OrderSafety
  import opened RunSafety

  /** The curve amount at which a curve backed to the unit graduates. */
  const GRADUATED_AT: nat := DOGE_MAX + DOGE_INIT

  /** Before graduation the curve row is the ledger, shifted by the virtual WDOGE. */
  ghost predicate Backed(d: Database, id: string)
    requires id in d.curves
  {
    var c := d.curves[id];
    && c.amt0 >= 1
    && c.amt1 >= DOGE_INIT
    && Bal(d, WDOGE, PumpReserves(id)) == c.amt1 - DOGE_INIT
    && Bal(d, Meme(id), PumpReserves(id)) == c.amt0
  }

  /** Where there is no curve yet there is nothing at its address either. */
  ghost predicate CurveInv(d: Database, id: string) {
    if id in d.curves then
      && V2(id) !in d.pools
      && Meme(id) in d.meme20.tokens
      && Issued(d, Meme(id)) == MEME_MAX
      && (Backed(d, id) || d.curves[id].amt1 >= GRADUATED_AT)
    else
      Bal(d, WDOGE, PumpReserves(id)) == 0
  }

  /** From one state to a later one: no curve disappears, its product does not fall, and a closed curve is frozen. */
  ghost predicate CurveKept(d: Database, d': Database, id: string) {
    id in d.curves ==>
      && id in d'.curves
      && d'.curves[id].creator == d.curves[id].creator
      && d.curves[id].amt0 * d.curves[id].amt1 <= d'.curves[id].amt0 * d'.curves[id].amt1
      && (d.curves[id].amt1 >= CLOSED_AT ==> d'.curves[id] == d.curves[id])
  }

  /** What an operation promises of one curve. */
  ghost predicate CurveKeeps(d: Database, d': Database, id: string) {
    CurveInv(d', id) && CurveKept(d, d', id)
  }

  // ---------------------------------------------------------------------------------------------------------------
  // Writes about something else
  // ---------------------------------------------------------------------------------------------------------------

  /** The write leaves the curve's row and the supply of its token alone. */
  predicate RowSpares(s: Step, id: string) {
    match s
    case MintTo(tick, _, _) => tick != Meme(id)
    case BurnFrom(tick, _, _) => tick != Meme(id)
    case OpenCurve(other, _, _) => other != id
    case SetCurve(other, _, _) => other != id
    case _ => true
  }

  /** The write leaves the balances of the curve's address alone, and does not open the curve. */
  predicate BalanceSpares(s: Step, id: string) {
    match s
    case Move(_, from, to, _) => from != PumpReserves(id) && to != PumpReserves(id)
    case MintTo(_, to, _) => to != PumpReserves(id)
    case BurnFrom(_, from, _) => from != PumpReserves(id)
    case OpenCurve(other, _, _) => other != id
    case _ => true
  }

  lemma SparedBalance(d: Database, s: Step, height: nat, id: string, t: Tick)
    requires Apply(d, s, height).Ok? && BalanceSpares(s, id)
    ensures Bal(Apply(d, s, height).value, t, PumpReserves(id)) == Bal(d, t, PumpReserves(id))
  {
    hide Apply;
    StepEffect(d, s, height, t, PumpReserves(id));
  }

  lemma SparedRow(d: Database, s: Step, height: nat, id: string)
    requires Apply(d, s, height).Ok? && RowSpares(s, id)
    ensures var d' := Apply(d, s, height).value;
            && (id in d.curves ==> id in d'.curves && d'.curves[id] == d.curves[id])
            && (Meme(id) in d.meme20.tokens ==> (V2(id) in d'.pools <==> V2(id) in d.pools))
            && Issued(d', Meme(id)) == Issued(d, Meme(id))
  {
    hide TransferIn, MintIn, BurnIn, CurveToken, Refreshed;
    StepEffect(d, s, height, Meme(id), Nobody);
    if Ledgerly(s) {
      LedgerlyStep(d, s, height);
    }
  }

  /** A curve comes into being by its own deploy only. */
  lemma StepNoCurve(d: Database, s: Step, height: nat, id: string)
    requires Apply(d, s, height).Ok? && !(s.OpenCurve? && s.id == id)
    ensures id in Apply(d, s, height).value.curves <==> id in d.curves
  {
    hide TransferIn, MintIn, BurnIn, CurveToken, Refreshed;
    if Ledgerly(s) {
      LedgerlyStep(d, s, height);
    }
  }

  /** What spares a curve's row keeps it; what spares its balances too keeps it backed. */
  lemma ApplySparesCurve(d: Database, s: Step, height: nat, id: string)
    requires Apply(d, s, height).Ok? && CurveInv(d, id)
    requires !(s.OpenCurve? && s.id == id) && (id in d.curves ==> RowSpares(s, id))
    requires BalanceSpares(s, id) || (id in d.curves && d.curves[id].amt1 >= GRADUATED_AT)
    ensures CurveKeeps(d, Apply(d, s, height).value, id)
    ensures id in Apply(d, s, height).value.curves <==> id in d.curves
    ensures id in d.curves ==> Apply(d, s, height).value.curves[id] == d.curves[id]
  {
    hide Apply, RowSpares, BalanceSpares;
    StepNoCurve(d, s, height, id);
    if id in d.curves {
      SparedRow(d, s, height, id);
    }
    StepKeeps(d, s, height);
    if BalanceSpares(s, id) {
      SparedBalance(d, s, height, id, WDOGE);
      SparedBalance(d, s, height, id, Meme(id));
    }
  }

  lemma {:induction false} SparesKeeps(d: Database, script: seq<Step>, height: nat, id: string)
    requires Run(d, script, height).Ok? && CurveInv(d, id)
    requires forall s <- script :: !(s.OpenCurve? && s.id == id) && (id in d.curves ==> RowSpares(s, id))
    requires (forall s <- script :: BalanceSpares(s, id)) || (id in d.curves && d.curves[id].amt1 >= GRADUATED_AT)
    ensures CurveKeeps(d, Run(d, script, height).value, id)
    ensures id in Run(d, script, height).value.curves <==> id in d.curves
    ensures id in d.curves ==> Run(d, script, height).value.curves[id] == d.curves[id]
    decreases |script|
  {
    hide Apply, RowSpares, BalanceSpares, Backed;
    if script != [] {
      ApplySparesCurve(d, script[0], height, id);
      SparesKeeps(Apply(d, script[0], height).value, script[1..], height, id);
    }
  }

  lemma CurveTrans(a: Database, b: Database, c: Database, id: string)
    requires CurveKeeps(a, b, id) && CurveKeeps(b, c, id)
    ensures CurveKeeps(a, c, id)
  {
    hide CurveInv;
  }

  lemma CurveSelf(d: Database, id: string)
    requires CurveInv(d, id)
    ensures CurveKeeps(d, d, id)
  {}

  // ---------------------------------------------------------------------------------------------------------------
  // Pair orders
  // ---------------------------------------------------------------------------------------------------------------

  lemma CreateIsFresh(d: Database, holder: Party, pool: PoolId, tick0: Tick, tick1: Tick, amt0: int, amt1: int, height: nat)
    requires CreateScript(holder, pool, tick0, tick1, amt0, amt1).Ok?
    requires Run(d, CreateScript(holder, pool, tick0, tick1, amt0, amt1).value, height).Ok?
    ensures pool !in d.pools && LpTick(pool) !in BookOf(d, LpTick(pool)).tokens
  {
    var script := CreateScript(holder, pool, tick0, tick1, amt0, amt1).value;
    assert Apply(d, script[0], height).Ok?;
  }

  predicate AboutPool(s: Step, pool: PoolId) {
    match s
    case Move(_, from, to, _) => !from.PumpReserves? && !to.PumpReserves?
    case MintTo(tick, to, _) => tick == LpTick(pool) && !to.PumpReserves?
    case BurnFrom(tick, from, _) => tick == LpTick(pool) && !from.PumpReserves?
    case OpenPool(_, _, _) => true
    case Refresh(_) => true
    case MarkTraded(_) => true
    case _ => false
  }

  lemma OrderAbout(d: Database, hash: string, holder: Signer, o: Order, height: nat)
    requires OrderPlan(d, hash, holder, o, height).Ok?
    ensures forall s <- OrderPlan(d, hash, holder, o, height).value.script :: AboutPool(s, o.pool)
    ensures !o.Create? ==> o.pool in d.pools
  {
    hide Isqrt, Minted, AddAmounts, Redeemed, Out, AfterFee, AddVerified, TradedAlready;
    match o
    case Create(_, _, _, _, _) =>
    case Add(_, _, _, _, _) =>
    case Remove(_, _) =>
    case Exec(_, _, _, _) =>
  }

  lemma OrderCurve(d: Database, hash: string, holder: Signer, o: PairOrder, height: nat, id: string)
    requires CurveInv(d, id) && RunOrder(d, hash, holder, o, height).Ok?
    ensures CurveKeeps(d, RunOrder(d, hash, holder, o, height).value.0, id)
  {
    var plan := OrderPlan(d, hash, holder, o.order, height).value;
    OrderAbout(d, hash, holder, o.order, height);
    if o.order.Create? {
      CreateIsFresh(d, holder, o.order.pool, o.order.tick0, o.order.tick1, o.order.amt0, o.order.amt1, height);
    }
    hide Run, OrderPlan, Backed;
    forall s | s in plan.script
      ensures !s.OpenCurve? && (id in d.curves ==> RowSpares(s, id)) && BalanceSpares(s, id)
    {
      AboutSpares(s, o.order.pool, id);
    }
    SparesKeeps(d, plan.script, height, id);
  }

  lemma AboutSpares(s: Step, pool: PoolId, id: string)
    requires AboutPool(s, pool)
    ensures !s.OpenCurve? && BalanceSpares(s, id) && (pool != V2(id) ==> RowSpares(s, id))
  {}

  lemma {:induction false} OrdersCurve(d: Database, hash: string, holder: Signer, os: seq<PairOrder>, height: nat, id: string)
    requires CurveInv(d, id) && RunOrders(d, hash, holder, os, height).Ok?
    ensures CurveKeeps(d, RunOrders(d, hash, holder, os, height).value.0, id)
    decreases |os|
  {
    hide RunOrder, CurveInv, CurveKept;
    if os == [] {
      CurveSelf(d, id);
    } else {
      var mid := RunOrder(d, hash, holder, os[0], height).value.0;
      OrderCurve(d, hash, holder, os[0], height, id);
      OrdersCurve(mid, hash, holder, os[1..], height, id);
      CurveTrans(d, mid, RunOrders(d, hash, holder, os, height).value.0, id);
    }
  }

  lemma PaysCurve(d: Database, holder: Signer, amt: int, height: nat, id: string)
    requires CurveInv(d, id)
    ensures PayIn(d, holder, amt, height).Ok? ==> CurveKeeps(d, PayIn(d, holder, amt, height).value, id)
    ensures amt >= 0 && PayOut(d, holder, amt, height).Ok? ==> CurveKeeps(d, PayOut(d, holder, amt, height).value, id)
  {
    hide Run, CurveInv, CurveKept;
    if amt <= 0 {
      CurveSelf(d, id);
    } else {
      if Run(d, [MintTo(WDOGE, holder, amt)], height).Ok? {
        SparesKeeps(d, [MintTo(WDOGE, holder, amt)], height, id);
      }
      if Run(d, [BurnFrom(WDOGE, holder, amt)], height).Ok? {
        SparesKeeps(d, [BurnFrom(WDOGE, holder, amt)], height, id);
      }
    }
  }

  lemma PairCurve(d: Database, hash: string, holder: Signer, os: seq<PairOrder>, height: nat, id: string)
    requires CurveInv(d, id)
    ensures CurveKeeps(d, PairTx(d, hash, holder, os, height), id)
  {
    hide PayIn, PayOut, RunOrders, Deposits, CurveInv, CurveKept;
    CurveSelf(d, id);
    if Deposits(d.pools, os).Ok? && PayIn(d, holder, Deposits(d.pools, os).value, height).Ok? {
      var funded := PayIn(d, holder, Deposits(d.pools, os).value, height).value;
      PaysCurve(d, holder, Deposits(d.pools, os).value, height, id);
      if OrdersAndPayOut(funded, hash, holder, os, height).Ok? {
        var done := RunOrders(funded, hash, holder, os, height).value;
        OrdersCurve(funded, hash, holder, os, height, id);
        PaysCurve(done.0, holder, done.1, height, id);
        CurveTrans(d, funded, done.0, id);
        CurveTrans(d, done.0, PayOut(done.0, holder, done.1, height).value, id);
      }
    }
  }

  // ---------------------------------------------------------------------------------------------------------------
  // Trades
  // ---------------------------------------------------------------------------------------------------------------

  lemma FeeEffect(d: Database, trader: Signer, payer: Party, fee: nat, t: Tick, id: string)
    requires InvitersTidy(d)
    ensures Total(FeeScript(d, trader, payer, fee), t, PumpReserves(id)) ==
            if payer == PumpReserves(id) && t == WDOGE then 0 - fee else 0
    ensures SupplyTotal(FeeScript(d, trader, payer, fee), t) == 0
    ensures forall s <- FeeScript(d, trader, payer, fee) :: s.Move?
  {
    var first := Move(WDOGE, payer, TX_FEE, fee);
    if trader in d.inviters {
      Total2(first, Move(WDOGE, TX_FEE, d.inviters[trader], fee / 2), t, PumpReserves(id));
    } else {
      TotalCons(first, [], t, PumpReserves(id));
      assert [first] + [] == [first];
    }
  }

  /** The ledger part of a trade, and the two amounts it leaves on the curve. */
  function TradeMoves(d: Database, trader: Signer, id: string, buy: bool, amt: nat): seq<Step>
    requires amt > 0 && id in d.curves
  {
    var script := TradeScript(d, trader, id, buy, amt);
    script[..|script| - 1]
  }

  /** The curve row after a trade. */
  function AfterTrade(c: Curve, buy: bool, amt: nat): (r: Curve)
    requires amt > 0
  {
    if buy then
      var x := amt - amt / 100;
      OutKeepsProduct(x, c.amt1, c.amt0);
      c.(amt0 := c.amt0 - Out(x, c.amt1, c.amt0), amt1 := c.amt1 + x)
    else
      OutKeepsProduct(amt, c.amt0, c.amt1);
      c.(amt0 := c.amt0 + amt, amt1 := c.amt1 - Out(amt, c.amt0, c.amt1))
  }

  lemma TradeSplit(d: Database, trader: Signer, id: string, buy: bool, amt: nat)
    requires amt > 0 && id in d.curves
    ensures var c := AfterTrade(d.curves[id], buy, amt);
            TradeScript(d, trader, id, buy, amt) == TradeMoves(d, trader, id, buy, amt) + [SetCurve(id, c.amt0, c.amt1)]
    ensures forall s <- TradeMoves(d, trader, id, buy, amt) :: s.Move?
  {
    hide Out;
  }

  lemma TradeTotals(d: Database, trader: Signer, id: string, buy: bool, amt: nat)
    requires amt > 0 && id in d.curves && InvitersTidy(d)
    ensures var moves, c, c' := TradeMoves(d, trader, id, buy, amt), d.curves[id], AfterTrade(d.curves[id], buy, amt);
            && Total(moves, WDOGE, PumpReserves(id)) == c'.amt1 - c.amt1
            && Total(moves, Meme(id), PumpReserves(id)) == c'.amt0 - c.amt0
            && SupplyTotal(moves, Meme(id)) == 0
  {
    hide Out, FeeScript, Total, SupplyTotal;
    var c := d.curves[id];
    forall t | t == WDOGE || t == Meme(id)
      ensures Total(TradeMoves(d, trader, id, buy, amt), t, PumpReserves(id)) ==
              if t == WDOGE then AfterTrade(c, buy, amt).amt1 - c.amt1 else AfterTrade(c, buy, amt).amt0 - c.amt0
      ensures SupplyTotal(TradeMoves(d, trader, id, buy, amt), t) == 0
    {
      if buy {
        BuyTotals(d, trader, id, amt, t);
      } else {
        SellTotals(d, trader, id, amt, t);
      }
    }
  }

  lemma BuyTotals(d: Database, trader: Signer, id: string, amt: nat, t: Tick)
    requires amt > 0 && id in d.curves && InvitersTidy(d) && (t == WDOGE || t == Meme(id))
    ensures var moves, c, c' := TradeMoves(d, trader, id, true, amt), d.curves[id], AfterTrade(d.curves[id], true, amt);
            && Total(moves, t, PumpReserves(id)) == (if t == WDOGE then c'.amt1 - c.amt1 else c'.amt0 - c.amt0)
            && SupplyTotal(moves, t) == 0
  {
    hide Out, FeeScript;
    var c := d.curves[id];
    var fee := amt / 100;
    var x := amt - fee;
    OutKeepsProduct(x, c.amt1, c.amt0);
    var fees := FeeScript(d, trader, trader, fee);
    var s0, s1 := Move(WDOGE, trader, PumpReserves(id), x), Move(Meme(id), PumpReserves(id), trader, Out(x, c.amt1, c.amt0));
    assert TradeMoves(d, trader, id, true, amt) == fees + [s0, s1];
    FeeEffect(d, trader, trader, fee, t, id);
    TotalAppend(fees, [s0, s1], t, PumpReserves(id));
    Total2(s0, s1, t, PumpReserves(id));
  }

  lemma SellTotals(d: Database, trader: Signer, id: string, amt: nat, t: Tick)
    requires amt > 0 && id in d.curves && InvitersTidy(d) && (t == WDOGE || t == Meme(id))
    ensures var moves, c, c' := TradeMoves(d, trader, id, false, amt), d.curves[id], AfterTrade(d.curves[id], false, amt);
            && Total(moves, t, PumpReserves(id)) == (if t == WDOGE then c'.amt1 - c.amt1 else c'.amt0 - c.amt0)
            && SupplyTotal(moves, t) == 0
  {
    hide Out, FeeScript;
    var c := d.curves[id];
    OutKeepsProduct(amt, c.amt0, c.amt1);
    var out := Out(amt, c.amt0, c.amt1);
    var fees := FeeScript(d, trader, PumpReserves(id), out / 100);
    var s0, s1 := Move(Meme(id), trader, PumpReserves(id), amt), Move(WDOGE, PumpReserves(id), trader, out - out / 100);
    assert TradeMoves(d, trader, id, false, amt) == ([s0] + fees) + [s1];
    FeeEffect(d, trader, PumpReserves(id), out / 100, t, id);
    TotalAppend([s0] + fees, [s1], t, PumpReserves(id));
    TotalCons(s0, fees, t, PumpReserves(id));
    TotalCons(s1, [], t, PumpReserves(id));
    assert [s1] + [] == [s1];
  }

  /** A trade never lowers the product, and never empties the meme side. */
  lemma TradeProduct(c: Curve, buy: bool, amt: nat)
    requires amt > 0
    ensures var c' := AfterTrade(c, buy, amt);
            && c.amt0 * c.amt1 <= c'.amt0 * c'.amt1
            && c'.creator == c.creator
            && (c.amt0 > 0 && c.amt1 > 0 ==> c'.amt0 > 0)
  {
    hide Out;
    if buy {
      OutKeepsProduct(amt - amt / 100, c.amt1, c.amt0);
    } else {
      OutKeepsProduct(amt, c.amt0, c.amt1);
    }
  }

  /** A trade that went through leaves the curve backed to the unit: the WDOGE and the memes at its address are what
      the new row says. */
  lemma TradeBacked(d: Database, trader: Signer, id: string, buy: bool, amt: nat, height: nat)
    requires amt > 0 && id in d.curves && CurveInv(d, id) && Backed(d, id) && InvitersTidy(d)
    requires Run(d, TradeScript(d, trader, id, buy, amt), height).Ok?
    ensures var f := Run(d, TradeScript(d, trader, id, buy, amt), height).value;
            && f.curves == d.curves[id := AfterTrade(d.curves[id], buy, amt)]
            && f.pools == d.pools && f.infos == d.infos
            && f.drc20.tokens.Keys == d.drc20.tokens.Keys && f.meme20.tokens.Keys == d.meme20.tokens.Keys
            && Backed(f, id) && CurveInv(f, id)
  {
    hide Total, SupplyTotal, TradeMoves, AfterTrade, Run, TradeScript;
    var moves := TradeMoves(d, trader, id, buy, amt);
    var c := AfterTrade(d.curves[id], buy, amt);
    TradeSplit(d, trader, id, buy, amt);
    RunAppend(d, moves, [SetCurve(id, c.amt0, c.amt1)], height);
    TradeProduct(d.curves[id], buy, amt);
    LedgerlyRun(d, moves, height);
    TradeTotals(d, trader, id, buy, amt);
    RunEffect(d, moves, height, WDOGE, PumpReserves(id));
    RunEffect(d, moves, height, Meme(id), PumpReserves(id));
    SetCurveRun(Run(d, moves, height).value, id, c, height);
  }

  lemma SetCurveRun(d: Database, id: string, c: Curve, height: nat)
    requires id in d.curves && c.creator == d.curves[id].creator
    ensures Run(d, [SetCurve(id, c.amt0, c.amt1)], height).Ok?
    ensures var f := Run(d, [SetCurve(id, c.amt0, c.amt1)], height).value;
            f == d.(curves := d.curves[id := c], curveLog := f.curveLog)
  {
    assert [SetCurve(id, c.amt0, c.amt1)][1..] == [];
  }

  // ---------------------------------------------------------------------------------------------------------------
  // Solvency
  // ---------------------------------------------------------------------------------------------------------------

  /** Every sale of memes that are not on the curve is within the real WDOGE, the amount beyond the virtual part, if and
      only if the product is more than the whole issue times one less than the virtual part. */
  lemma SalesCoveredIff(r0: nat, r1: nat)
    requires 0 < r0 < MEME_MAX && r1 >= DOGE_INIT
    ensures (forall amt | 0 < amt <= MEME_MAX - r0 :: Out(amt, r0, r1) <= r1 - DOGE_INIT) <==>
            r0 * r1 > MEME_MAX * (DOGE_INIT - 1)
  {
    hide Out;
    if r0 * r1 > MEME_MAX * (DOGE_INIT - 1) {
      forall amt | 0 < amt <= MEME_MAX - r0
        ensures Out(amt, r0, r1) <= r1 - DOGE_INIT
      {
        OutCovered(r0, r1, amt);
      }
    } else {
      WholeIssueOut(r0, r1);
    }
  }

  lemma OutCovered(r0: nat, r1: nat, amt: nat)
    requires amt > 0 && r0 + amt <= MEME_MAX && r0 * r1 > MEME_MAX * (DOGE_INIT - 1)
    ensures Out(amt, r0, r1) <= r1 - DOGE_INIT
  {
    hide Out;
    OutKeepsProduct(amt, r0, r1);
    CoveredBelow(r0 + amt, r1 - Out(amt, r0, r1), MEME_MAX, DOGE_INIT, r0 * r1);
  }

  lemma CoveredBelow(a: nat, b: nat, m: nat, i: nat, k: nat)
    requires a <= m && a * b >= k > m * (i - 1)
    ensures b >= i
  {
    ProductMono(a, m, b, b);
    if b < i {
      MulMono(b, i - 1, m);
    }
  }

  /** Selling all that is not on the curve, when the product is at most that bound, asks for part of the virtual WDOGE.
      */
  lemma WholeIssueOut(r0: nat, r1: nat)
    requires 0 < r0 < MEME_MAX && r0 * r1 <= MEME_MAX * (DOGE_INIT - 1)
    ensures Out(MEME_MAX - r0, r0, r1) > r1 - DOGE_INIT
  {
    Floored((MEME_MAX - r0) * r1, MEME_MAX, r1 - (DOGE_INIT - 1));
    assert (MEME_MAX - r0) * r1 == MEME_MAX * r1 - r0 * r1;
    assert MEME_MAX * (r1 - (DOGE_INIT - 1)) == MEME_MAX * r1 - MEME_MAX * (DOGE_INIT - 1);
  }

  lemma Floored(n: int, d: nat, q: int)
    requires d > 0 && d * q <= n
    ensures n / d >= q
  {
    var k := n / d;
    assert n < k * d + d;
    if k < q {
      MulMono(k + 1, q, d);
    }
  }

  /** While the product is above the bound no holder's sale exceeds the real WDOGE at the curve's address: the virtual
      part is never sold into. */
  lemma SaleCovered(d: Database, id: string, trader: Signer, amt: nat)
    requires ConservedAll(d) && id in d.curves && CurveInv(d, id) && Backed(d, id)
    requires d.curves[id].amt0 * d.curves[id].amt1 > MEME_MAX * (DOGE_INIT - 1)
    requires 0 < amt <= Bal(d, Meme(id), trader)
    ensures Out(amt, d.curves[id].amt0, d.curves[id].amt1) <= Bal(d, WDOGE, PumpReserves(id))
  {
    hide Out;
    TwoHolders(d.meme20.tokens, Meme(id), trader, PumpReserves(id));
    OutCovered(d.curves[id].amt0, d.curves[id].amt1, amt);
  }

  // ---------------------------------------------------------------------------------------------------------------
  // Graduation
  // ---------------------------------------------------------------------------------------------------------------

  lemma MoveGoes(d: Database, tick: Tick, from: Party, to: Party, amt: int, height: nat)
    ensures Apply(d, Move(tick, from, to, amt), height).Ok? <==> from != to && 1 <= amt <= Bal(d, tick, from)
  {}

  lemma BurnGoes(d: Database, tick: Tick, from: Party, units: nat, height: nat)
    requires ConservedAll(d) && 1 <= units <= Bal(d, tick, from)
    ensures Apply(d, BurnFrom(tick, from, units), height).Ok?
  {
    OneHolder(d, tick, from);
  }

  lemma RunFirst(d: Database, s: Step, rest: seq<Step>, height: nat)
    ensures Run(d, [s] + rest, height) ==
            if Apply(d, s, height).Ok? then Run(Apply(d, s, height).value, rest, height) else Failed
  {
    assert ([s] + rest)[1..] == rest;
  }

  /** Pay a fee out of the curve's address and burn it where it lands. */
  lemma FeeBurned(d: Database, payer: Party, to: Party, fee: nat, height: nat)
    requires ConservedAll(d) && payer != to && 1 <= fee <= Bal(d, WDOGE, payer)
    ensures Run(d, [Move(WDOGE, payer, to, fee), BurnFrom(WDOGE, to, fee)], height).Ok?
    ensures var f := Run(d, [Move(WDOGE, payer, to, fee), BurnFrom(WDOGE, to, fee)], height).value;
            ConservedAll(f) && f.pools == d.pools && f.curves == d.curves && f.infos == d.infos
            && f.drc20.tokens.Keys == d.drc20.tokens.Keys && f.meme20.tokens.Keys == d.meme20.tokens.Keys
  {
    hide Apply, ConservedAll, Delta, SupplyDelta;
    var s0, s1 := Move(WDOGE, payer, to, fee), BurnFrom(WDOGE, to, fee);
    MoveGoes(d, WDOGE, payer, to, fee, height);
    var d1 := Apply(d, s0, height).value;
    ApplyConserves(d, s0, height);
    StepEffect(d, s0, height, WDOGE, to);
    assert Delta(s0, WDOGE, to) == fee by { Gained(payer, to, fee); }
    BurnGoes(d1, WDOGE, to, fee, height);
    RunFirst(d, s0, [s1], height);
    RunFirst(d1, s1, [], height);
    assert [s0] + [s1] == [s0, s1] && [s1] + [] == [s1];
    ApplyConserves(d1, s1, height);
    LedgerlyRun(d, [s0, s1], height);
  }

  lemma Gained(payer: Party, to: Party, fee: nat)
    requires payer != to
    ensures Delta(Move(WDOGE, payer, to, fee), WDOGE, to) == fee
  {}

  /** `FinishFees` on a curve that can graduate. */
  lemma FeesPaid(d: Database, id: string, creator: Signer, height: nat)
    requires ConservedAll(d) && Bal(d, WDOGE, PumpReserves(id)) >= DOGE_MAX
    ensures Run(d, FinishFees(id, creator), height).Ok?
    ensures var f := Run(d, FinishFees(id, creator), height).value;
            && ConservedAll(f) && f.pools == d.pools && f.curves == d.curves && f.infos == d.infos
            && f.drc20.tokens.Keys == d.drc20.tokens.Keys && f.meme20.tokens.Keys == d.meme20.tokens.Keys
            && Bal(f, WDOGE, PumpReserves(id)) ==
               Bal(d, WDOGE, PumpReserves(id)) - (PUMP_FINISH_FEE + PUMP_CREATE_HOLDER_FEE)
            && Issued(f, WDOGE) == Issued(d, WDOGE) - (PUMP_FINISH_FEE + PUMP_CREATE_HOLDER_FEE)
            && (forall t, a | t != WDOGE :: Bal(f, t, a) == Bal(d, t, a))
            && (forall t | t != WDOGE :: Issued(f, t) == Issued(d, t))
            && (forall t, p :: Bal(f, t, Reserves(p)) == Bal(d, t, Reserves(p)))
  {
    hide Run, Apply, ConservedAll, Total, SupplyTotal;
    var a := [Move(WDOGE, PumpReserves(id), FINISH_FEE, PUMP_FINISH_FEE), BurnFrom(WDOGE, FINISH_FEE, PUMP_FINISH_FEE)];
    var b := [Move(WDOGE, PumpReserves(id), creator, PUMP_CREATE_HOLDER_FEE), BurnFrom(WDOGE, creator, PUMP_CREATE_HOLDER_FEE)];
    FeeBurned(d, PumpReserves(id), FINISH_FEE, PUMP_FINISH_FEE, height);
    var mid := Run(d, a, height).value;
    RunEffect(d, a, height, WDOGE, PumpReserves(id));
    Total2(a[0], a[1], WDOGE, PumpReserves(id));
    FeeBurned(mid, PumpReserves(id), creator, PUMP_CREATE_HOLDER_FEE, height);
    RunAppend(d, a, b, height);
    assert FinishFees(id, creator) == a + b;
    RunEffect(mid, b, height, WDOGE, PumpReserves(id));
    Total2(b[0], b[1], WDOGE, PumpReserves(id));
    forall t: Tick, x: Address | t != WDOGE || x.Reserves?
      ensures Bal(Run(d, a + b, height).value, t, x) == Bal(d, t, x)
      ensures t != WDOGE ==> Issued(Run(d, a + b, height).value, t) == Issued(d, t)
    {
      RunEffect(d, a, height, t, x);
      RunEffect(mid, b, height, t, x);
      Total2(a[0], a[1], t, x);
      Total2(b[0], b[1], t, x);
    }
  }
}
