/** What every pair order pays and is paid, to the unit, and exactly when it goes through. Each statement gives the
    balance of every address in every token afterwards; quotients are given by the inequalities that determine them. */
module Receipts {
  import opened Results
  import opened Names
  import opened Db
  import opened Quotes
  import opened Swap
  import opened Effects
  import opened PoolSafety
  import opened OrderSafety
  import opened PumpSafety
  import opened Graduation
  import opened Traders

  /** What a payment does to the balance of `a` in `t`. */
  function Paid(t: Tick, a: Address, tick: Tick, from: Address, to: Address, amt: int): int {
    (if t == tick && a == to then amt else 0) - (if t == tick && a == from then amt else 0)
  }

  lemma PaidByMove(s: Step, t: Tick, a: Address)
    requires s.Move?
    ensures Delta(s, t, a) == Paid(t, a, s.tick, s.from, s.to, s.amt) && SupplyDelta(s, t) == 0
  {}

  /** The writes behind the ledger part of an order. */
  function Closing(id: PoolId, hash: string, mark: bool): seq<Step> {
    [Refresh(id)] + if mark then [MarkTraded(hash)] else []
  }

  lemma ClosingIsFree(writes: seq<Step>, id: PoolId, hash: string, mark: bool, t: Tick, a: Address)
    ensures Total(writes + Closing(id, hash, mark), t, a) == Total(writes, t, a)
    ensures SupplyTotal(writes + Closing(id, hash, mark), t) == SupplyTotal(writes, t)
  {
    TotalAppend(writes, Closing(id, hash, mark), t, a);
    TotalCons(Refresh(id), if mark then [MarkTraded(hash)] else [], t, a);
    if mark {
      TotalCons(MarkTraded(hash), [], t, a);
      assert [MarkTraded(hash)] + [] == [MarkTraded(hash)];
    }
  }

  lemma AfterRun(d: Database, writes: seq<Step>, id: PoolId, hash: string, mark: bool, height: nat, t: Tick, a: Address)
    requires Run(d, writes + Closing(id, hash, mark), height).Ok?
    ensures var m := Run(d, writes + Closing(id, hash, mark), height).value;
            && Bal(m, t, a) == Bal(d, t, a) + Total(writes, t, a)
            && Issued(m, t) == Issued(d, t) + SupplyTotal(writes, t)
  {
    hide Run, Total, SupplyTotal, Closing, Bal, Issued;
    ClosingIsFree(writes, id, hash, mark, t, a);
    RunEffect(d, writes + Closing(id, hash, mark), height, t, a);
  }

  /** The row of the order's pool is what the ledger then says, and no other row changed. */
  ghost predicate RowsAfter(d: Database, m: Database, id: PoolId, tick0: Tick, tick1: Tick) {
    && m.pools == d.pools[id := Pool(tick0, tick1, Bal(m, tick0, Reserves(id)), Bal(m, tick1, Reserves(id)),
                                     Issued(m, LpTick(id)))]
    && m.curves == d.curves && m.stakes == d.stakes
  }

  lemma RowsClosed(d: Database, writes: seq<Step>, id: PoolId, hash: string, mark: bool, height: nat)
    requires id in d.pools && Run(d, writes + Closing(id, hash, mark), height).Ok? && forall s <- writes :: Ledgerly(s)
    ensures RowsAfter(d, Run(d, writes + Closing(id, hash, mark), height).value, id, d.pools[id].tick0, d.pools[id].tick1)
  {
    hide Ledgerly, TransferIn, MintIn, BurnIn;
    RunAppend(d, writes, Closing(id, hash, mark), height);
    LedgerlyRun(d, writes, height);
    var m := Run(d, writes, height).value;
    var tail := if mark then [MarkTraded(hash)] else [];
    RunFirst(m, Refresh(id), tail, height);
    var r := Apply(m, Refresh(id), height).value;
    if mark {
      assert [MarkTraded(hash)] == [MarkTraded(hash)] + [];
      RunFirst(r, MarkTraded(hash), [], height);
    }
  }

  // ---------------------------------------------------------------------------------------------------------------
  // Swap
  // ---------------------------------------------------------------------------------------------------------------

  /** What of a payment enters the price: three floored thousandths of it do not. */
  lemma ExecOutIs(p: Pool, zero: bool, amt: nat)
    requires amt >= 1
    ensures var x := amt - 3 * (amt / 1000);
            var rin, rout := if zero then p.amt0 else p.amt1, if zero then p.amt1 else p.amt0;
            x > 0 && FloorOf(ExecOut(p, zero, amt), x * rout, rin + x)
  {
    FloorIs(AfterFee(amt) * (if zero then p.amt1 else p.amt0), (if zero then p.amt0 else p.amt1) + AfterFee(amt));
  }

  /** A swap that goes through, v1 or v2: the holder pays `amt` of the input, the pool pays out the product formula's
      floor for what is left of it after three floored thousandths, and nothing else changes hands. */
  lemma SwapPays(d: Database, hash: string, holder: Signer, o: PairOrder, height: nat)
    requires Safe(d) && o.order.Exec? && RunOrder(d, hash, holder, o, height).Ok?
    ensures var id, amt, m := o.order.pool, o.order.amt, RunOrder(d, hash, holder, o, height).value.0;
            && id in d.pools && amt >= 1
            && var p := d.pools[id];
               var zero := o.order.input == p.tick0;
               var tickIn, tickOut := if zero then p.tick0 else p.tick1, if zero then p.tick1 else p.tick0;
               var rin, rout := if zero then p.amt0 else p.amt1, if zero then p.amt1 else p.amt0;
               var x := amt - 3 * (amt / 1000);
               var out := Bal(m, tickOut, holder) - Bal(d, tickOut, holder);
               && o.order.input == tickIn && tickIn != tickOut
               && out >= 1 && out >= o.order.minOut && FloorOf(out, x * rout, rin + x)
               && (forall t, a :: Bal(m, t, a) == Bal(d, t, a) + Paid(t, a, tickIn, holder, Reserves(id), amt)
                                                               + Paid(t, a, tickOut, Reserves(id), holder, out))
               && (forall t :: Issued(m, t) == Issued(d, t))
               && RowsAfter(d, m, id, p.tick0, p.tick1)
               && RunOrder(d, hash, holder, o, height).value.1 == if o.doge && tickOut == WDOGE then out else 0
  {
    hide Safe, ExecOut, Total, SupplyTotal, Bal, Issued, RowsAfter, TradedAlready, Apply;
    FirstSwapNeeds(d, hash, holder, o, height);
    var id, amt := o.order.pool, o.order.amt;
    var p := d.pools[id];
    TicksApart(d, id);
    var zero := o.order.input == p.tick0;
    var tickIn, tickOut := if zero then p.tick0 else p.tick1, if zero then p.tick1 else p.tick0;
    var out := ExecOut(p, zero, amt);
    var moves := ExecMoves(holder, id, tickIn, tickOut, amt, out);
    ExecOutIs(p, zero, amt);
    ExecCloses(d, hash, holder, o, height);
    var m := RunOrder(d, hash, holder, o, height).value.0;
    SwapChanges(d, m, moves, id, hash, height, holder, tickIn, tickOut, amt, out);
    RowsClosed(d, moves, id, hash, id.V2?, height);
  }

  lemma SwapChanges(d: Database, m: Database, moves: seq<Step>, id: PoolId, hash: string, height: nat, holder: Signer,
                    tickIn: Tick, tickOut: Tick, amt: nat, out: nat)
    requires moves == ExecMoves(holder, id, tickIn, tickOut, amt, out) && tickIn != tickOut
    requires Run(d, moves + Closing(id, hash, id.V2?), height) == Ok(m)
    ensures forall t, a :: Bal(m, t, a) == Bal(d, t, a) + Paid(t, a, tickIn, holder, Reserves(id), amt)
                                                        + Paid(t, a, tickOut, Reserves(id), holder, out)
    ensures forall t :: Issued(m, t) == Issued(d, t)
    ensures Bal(m, tickOut, holder) == Bal(d, tickOut, holder) + out
    ensures 1 <= out
  {
    hide Run, Total, SupplyTotal, Bal, Issued, Closing;
    forall t: Tick, a: Address
      ensures Bal(m, t, a) == Bal(d, t, a) + Paid(t, a, tickIn, holder, Reserves(id), amt)
                                           + Paid(t, a, tickOut, Reserves(id), holder, out)
    {
      AfterRun(d, moves, id, hash, id.V2?, height, t, a);
      Total2(moves[0], moves[1], t, a);
    }
    forall t: Tick
      ensures Issued(m, t) == Issued(d, t)
    {
      AfterRun(d, moves, id, hash, id.V2?, height, t, holder);
      Total2(moves[0], moves[1], t, holder);
    }
    SecondMoves(d, moves[0], moves[1], Closing(id, hash, id.V2?), height);
  }

  lemma SecondMoves(d: Database, s0: Step, s1: Step, rest: seq<Step>, height: nat)
    requires s1.Move? && Run(d, [s0, s1] + rest, height).Ok?
    ensures 1 <= s1.amt
  {
    hide Apply;
    assert [s0, s1] + rest == [s0] + ([s1] + rest);
    RunFirst(d, s0, [s1] + rest, height);
    RunFirst(Apply(d, s0, height).value, s1, rest, height);
    MoveNeeds(Apply(d, s0, height).value, s1, height);
  }

  lemma ExecCloses(d: Database, hash: string, holder: Signer, o: PairOrder, height: nat)
    requires o.order.Exec? && RunOrder(d, hash, holder, o, height).Ok?
    ensures o.order.pool in d.pools && o.order.amt >= 1
    ensures var id, amt, p := o.order.pool, o.order.amt, d.pools[o.order.pool];
            var zero := o.order.input == p.tick0;
            var tickIn, tickOut := if zero then p.tick0 else p.tick1, if zero then p.tick1 else p.tick0;
            var r := RunOrder(d, hash, holder, o, height).value;
            && Ok(r.0) == Run(d, ExecMoves(holder, id, tickIn, tickOut, amt, ExecOut(p, zero, amt))
                                   + Closing(id, hash, id.V2?), height)
            && r.1 == (if o.doge && tickOut == WDOGE then ExecOut(p, zero, amt) else 0)
            && ExecOut(p, zero, amt) >= o.order.minOut
  {
    hide Run, Out, AfterFee, TradedAlready;
    ExecScript(d, hash, holder, o.order, height);
  }

  /** Nobody's trade of this kind is on record for the holder at this height. */
  ghost predicate FirstToday(d: Database, protocol: Protocol, holder: Signer, height: nat) {
    forall k <- d.infos :: d.infos[k] != Info(protocol, height, holder, true)
  }

  /** The transaction has its info row at this height. */
  predicate OnRecord(d: Database, hash: string, height: nat) {
    hash in d.infos && d.infos[hash].height == height && d.infos[hash].protocol != Consensus
  }

  /** A swap is accepted if and only if its pair has the input, the holder has the payment, and the price, `out`, is
      something and at least the minimum asked for; with v2, as the holder's first completed v2 swap of the block. */
  lemma SwapIff(d: Database, hash: string, holder: Signer, o: PairOrder, height: nat, out: nat)
    requires Safe(d) && o.order.Exec?
    requires o.order.pool in d.pools && o.order.amt >= 1 ==>
               var p, x := d.pools[o.order.pool], o.order.amt - 3 * (o.order.amt / 1000);
               var zero := o.order.input == p.tick0;
               FloorOf(out, x * (if zero then p.amt1 else p.amt0), (if zero then p.amt0 else p.amt1) + x)
    ensures RunOrder(d, hash, holder, o, height).Ok? <==>
            && o.order.pool in d.pools && o.order.amt >= 1
            && (o.order.input == d.pools[o.order.pool].tick0 || o.order.input == d.pools[o.order.pool].tick1)
            && o.order.amt <= Bal(d, o.order.input, holder)
            && 1 <= out && o.order.minOut <= out
            && (o.order.pool.V1? ==> o.order.minOut >= 0)
            && (o.order.pool.V2? ==> FirstToday(d, PairV2, holder, height) && OnRecord(d, hash, height))
  {
    hide Apply, Safe, ExecOut, Out, AfterFee, Delta, SupplyDelta, TradedAlready, FirstToday, OnRecord, Bal;
    ExecPriced(d, hash, holder, o.order, height);
    if o.order.pool in d.pools && o.order.amt >= 1 {
      var p := d.pools[o.order.pool];
      var zero := o.order.input == p.tick0;
      ExecOutIs(p, zero, o.order.amt);
      FloorUnique(out, ExecOut(p, zero, o.order.amt),
                  (o.order.amt - 3 * (o.order.amt / 1000)) * (if zero then p.amt1 else p.amt0),
                  (if zero then p.amt0 else p.amt1) + (o.order.amt - 3 * (o.order.amt / 1000)));
      if OrderPlan(d, hash, holder, o.order, height).Ok? {
        SwapRuns(d, hash, holder, o, height);
      }
    }
  }

  lemma ExecPriced(d: Database, hash: string, holder: Signer, o: Order, height: nat)
    requires o.Exec?
    ensures OrderPlan(d, hash, holder, o, height).Ok? <==>
            && o.pool in d.pools && o.amt >= 1
            && (o.input == d.pools[o.pool].tick0 || o.input == d.pools[o.pool].tick1)
            && o.minOut <= ExecOut(d.pools[o.pool], o.input == d.pools[o.pool].tick0, o.amt)
            && (o.pool.V1? ==> o.minOut >= 0)
            && (o.pool.V2? ==> FirstToday(d, PairV2, holder, height))
  {
    hide Out, AfterFee;
  }

  /** The writes of a priced swap go through. */
  lemma SwapRuns(d: Database, hash: string, holder: Signer, o: PairOrder, height: nat)
    requires Safe(d) && o.order.Exec? && OrderPlan(d, hash, holder, o.order, height).Ok?
    ensures o.order.pool in d.pools && o.order.amt >= 1
    ensures RunOrder(d, hash, holder, o, height).Ok? <==>
            && o.order.amt <= Bal(d, o.order.input, holder)
            && 1 <= ExecOut(d.pools[o.order.pool], o.order.input == d.pools[o.order.pool].tick0, o.order.amt)
            && (o.order.pool.V2? ==> OnRecord(d, hash, height))
  {
    hide Apply, Safe, ExecOut, Out, AfterFee, Delta, SupplyDelta, TradedAlready, Bal;
    ExecPriced(d, hash, holder, o.order, height);
    var id, amt, p := o.order.pool, o.order.amt, d.pools[o.order.pool];
    TicksApart(d, id);
    var zero := o.order.input == p.tick0;
    var tickIn, tickOut := if zero then p.tick0 else p.tick1, if zero then p.tick1 else p.tick0;
    var out := ExecOut(p, zero, amt);
    OutHeld(d, id, zero, amt);
    ExecScript(d, hash, holder, o.order, height);
    var pay, get := Move(tickIn, holder, Reserves(id), amt), Move(tickOut, Reserves(id), holder, out);
    var mark := if id.V2? then [MarkTraded(hash)] else [];
    assert OrderPlan(d, hash, holder, o.order, height).value.script == [pay] + ([get] + ([Refresh(id)] + mark));
    RunFirst(d, pay, [get] + ([Refresh(id)] + mark), height);
    MoveGoes(d, tickIn, holder, Reserves(id), amt, height);
    if Apply(d, pay, height).Ok? {
      var paid := Apply(d, pay, height).value;
      StepEffect(d, pay, height, tickOut, Reserves(id));
      OtherTick(pay, tickOut, Reserves(id));
      LedgerlyStep(d, pay, height);
      RunFirst(paid, get, [Refresh(id)] + mark, height);
      MoveGoes(paid, tickOut, Reserves(id), holder, out, height);
      if Apply(paid, get, height).Ok? {
        LedgerlyStep(paid, get, height);
        ClosingGoes(Apply(paid, get, height).value, id, hash, height);
      }
    }
  }

  lemma OutHeld(d: Database, id: PoolId, zero: bool, amt: nat)
    requires Safe(d) && id in d.pools && amt >= 1
    ensures ExecOut(d.pools[id], zero, amt) <= Bal(d, if zero then d.pools[id].tick1 else d.pools[id].tick0, Reserves(id))
  {
    assert PoolInv(d, id);
    hide Safe, Out, Bal, Sound;
    var p := d.pools[id];
    FeeIsPart(amt);
    OutKeepsProduct(AfterFee(amt), if zero then p.amt0 else p.amt1, if zero then p.amt1 else p.amt0);
  }

  lemma ClosingGoes(d: Database, id: PoolId, hash: string, height: nat)
    requires id in d.pools
    ensures Run(d, [Refresh(id)] + (if id.V2? then [MarkTraded(hash)] else []), height).Ok? <==>
            (id.V2? ==> OnRecord(d, hash, height))
  {
    RunFirst(d, Refresh(id), if id.V2? then [MarkTraded(hash)] else [], height);
    var r := Apply(d, Refresh(id), height).value;
    assert [MarkTraded(hash)] == [MarkTraded(hash)] + [];
    RunFirst(r, MarkTraded(hash), [], height);
  }

  // ---------------------------------------------------------------------------------------------------------------
  // Add
  // ---------------------------------------------------------------------------------------------------------------

  /** What an order that hands out or takes back liquidity changes: two payments, and `units` of the liquidity token. */
  ghost predicate Exchanges(d: Database, m: Database, holder: Party, to: Address, tick0: Tick, tick1: Tick, pay0: int,
                            pay1: int, lp: Tick, units: int) {
    && (forall t, a :: Bal(m, t, a) == Bal(d, t, a) + Paid(t, a, tick0, holder, to, pay0) + Paid(t, a, tick1, holder, to, pay1)
                                                    + (if t == lp && a == holder then units else 0))
    && (forall t :: Issued(m, t) == Issued(d, t) + if t == lp then units else 0)
  }

  lemma AddCloses(d: Database, hash: string, holder: Signer, o: PairOrder, height: nat)
    requires o.order.Add? && RunOrder(d, hash, holder, o, height).Ok?
    ensures var id, o_ := o.order.pool, o.order;
            && id in d.pools && o_.amt0 >= 1 && o_.amt1 >= 1
            && var p := d.pools[id];
               && AddVerified(Bal(d, p.tick0, holder), Bal(d, p.tick1, holder), p, o_.amt0, o_.amt1, o_.min0, o_.min1)
               && var v := AddAmounts(o_.amt0, o_.amt1, o_.min0, o_.min1, p.amt0, p.amt1);
                  && v.Ok?
                  && RunOrder(d, hash, holder, o, height).value.1 == 0
                  && Ok(RunOrder(d, hash, holder, o, height).value.0) ==
                     Run(d, AddMoves(holder, id, p, if id.V1? then v.value.0 else o_.amt0,
                                     if id.V1? then v.value.1 else o_.amt1,
                                     Minted(v.value.0, v.value.1, p.amt0, p.amt1, p.total)) + Closing(id, hash, false),
                         height)
  {
    hide Run, Minted, AddAmounts;
    var p := d.pools[o.order.pool];
    var v := AddAmounts(o.order.amt0, o.order.amt1, o.order.min0, o.order.min1, p.amt0, p.amt1).value;
    assert OrderPlan(d, hash, holder, o.order, height).value.script ==
           AddMoves(holder, o.order.pool, p, if o.order.pool.V1? then v.0 else o.order.amt0,
                    if o.order.pool.V1? then v.1 else o.order.amt1, Minted(v.0, v.1, p.amt0, p.amt1, p.total))
           + Closing(o.order.pool, hash, false);
  }

  /** An add that goes through settles its offer in proportion to the reserves and mints, for the holder, the most
      liquidity that stays in proportion to both settled amounts. With v1 the settled amounts are paid, with v2 the full
      offer. */
  lemma AddPays(d: Database, hash: string, holder: Signer, o: PairOrder, height: nat) returns (v0: nat, v1: nat)
    requires Safe(d) && o.order.Add? && RunOrder(d, hash, holder, o, height).Ok?
    ensures var id, r := o.order.pool, RunOrder(d, hash, holder, o, height).value;
            && id in d.pools && o.order.amt0 >= 1 && o.order.amt1 >= 1
            && var p, minted := d.pools[id], Bal(r.0, LpTick(id), holder) - Bal(d, LpTick(id), holder);
               && SettledOn(v0, v1, o.order.amt0, o.order.amt1, o.order.min0, o.order.min1, p.amt0, p.amt1)
               && minted >= 0 && LargestFor(minted, v0, v1, p.amt0, p.amt1, p.total)
               && Exchanges(d, r.0, holder, Reserves(id), p.tick0, p.tick1, if id.V1? then v0 else o.order.amt0,
                            if id.V1? then v1 else o.order.amt1, LpTick(id), minted)
               && RowsAfter(d, r.0, id, p.tick0, p.tick1)
               && r.1 == 0
  {
    hide Safe, Run, Minted, AddAmounts, AddVerified, Bal, Issued, RowsAfter, Total, SupplyTotal, SettledOn;
    AddCloses(d, hash, holder, o, height);
    var id, p := o.order.pool, d.pools[o.order.pool];
    TicksApart(d, id);
    HeldRow(d, id);
    var v := AddAmounts(o.order.amt0, o.order.amt1, o.order.min0, o.order.min1, p.amt0, p.amt1).value;
    v0, v1 := v.0, v.1;
    SettledIs(o.order.amt0, o.order.amt1, o.order.min0, o.order.min1, p.amt0, p.amt1);
    MintedIs(v0, v1, p.amt0, p.amt1, p.total);
    var minted := Minted(v0, v1, p.amt0, p.amt1, p.total);
    var moves := AddMoves(holder, id, p, if id.V1? then v0 else o.order.amt0, if id.V1? then v1 else o.order.amt1, minted);
    AddChanges(d, RunOrder(d, hash, holder, o, height).value.0, moves, id, hash, height);
    RowsClosed(d, moves, id, hash, false, height);
  }

  lemma HeldRow(d: Database, id: PoolId)
    requires Safe(d) && id in d.pools
    ensures d.pools[id].amt0 > 0 && d.pools[id].amt1 > 0 && d.pools[id].total > 0
    ensures d.pools[id].amt0 <= Bal(d, d.pools[id].tick0, Reserves(id))
    ensures d.pools[id].amt1 <= Bal(d, d.pools[id].tick1, Reserves(id))
    ensures d.pools[id].total == Issued(d, LpTick(id)) && LpTick(id) in BookOf(d, LpTick(id)).tokens
  {
    assert PoolInv(d, id);
    SoundPositive(ShapeOf(d.pools[id]));
  }

  /** Two payments and a mint or a burn of liquidity. */
  lemma AddChanges(d: Database, m: Database, moves: seq<Step>, id: PoolId, hash: string, height: nat)
    requires |moves| == 3 && moves[0].Move? && moves[1].Move? && moves[2].MintTo?
    requires moves[0].tick != LpTick(id) && moves[1].tick != LpTick(id) && moves[2].tick == LpTick(id)
    requires moves[0].from == moves[1].from == moves[2].to && moves[0].to == moves[1].to
    requires Run(d, moves + Closing(id, hash, false), height) == Ok(m)
    ensures Exchanges(d, m, moves[2].to, moves[0].to, moves[0].tick, moves[1].tick, moves[0].amt, moves[1].amt,
                      LpTick(id), moves[2].units)
    ensures Bal(m, LpTick(id), moves[2].to) == Bal(d, LpTick(id), moves[2].to) + moves[2].units
  {
    hide Run, Total, SupplyTotal, Bal, Issued, Closing;
    assert moves == [moves[0], moves[1], moves[2]];
    forall t: Tick, a: Address
      ensures Bal(m, t, a) == Bal(d, t, a) + Paid(t, a, moves[0].tick, moves[0].from, moves[0].to, moves[0].amt)
                              + Paid(t, a, moves[1].tick, moves[1].from, moves[1].to, moves[1].amt)
                              + (if t == LpTick(id) && a == moves[2].to then moves[2].units else 0)
    {
      AfterRun(d, moves, id, hash, false, height, t, a);
      Total3(moves[0], moves[1], moves[2], t, a);
    }
    forall t: Tick
      ensures Issued(m, t) == Issued(d, t) + if t == LpTick(id) then moves[2].units else 0
    {
      AfterRun(d, moves, id, hash, false, height, t, moves[2].to);
      Total3(moves[0], moves[1], moves[2], t, moves[2].to);
    }
  }

  /** An add is accepted if and only if the guard finds what it looks for on the branch the minimum selects, and the
      offer settles, for at least one unit of each token, which the holder has. `b` and `a` are what the reserves ask of
      the second token for the whole first amount, and of the first for the whole second. */
  lemma AddIff(d: Database, hash: string, holder: Signer, o: PairOrder, height: nat, a: nat, b: nat)
    requires Safe(d) && o.order.Add?
    requires o.order.pool in d.pools && o.order.amt0 >= 1 && o.order.amt1 >= 1 ==>
               var p := d.pools[o.order.pool];
               FloorOf(b, o.order.amt0 * p.amt1, p.amt0) && FloorOf(a, o.order.amt1 * p.amt0, p.amt1)
    ensures RunOrder(d, hash, holder, o, height).Ok? <==>
            && o.order.pool in d.pools && o.order.amt0 >= 1 && o.order.amt1 >= 1
            && var p := d.pools[o.order.pool];
               var held0, held1 := Bal(d, p.tick0, holder), Bal(d, p.tick1, holder);
               var second := o.order.min1 <= b <= o.order.amt1;
               && (if b < o.order.min1 then o.order.min0 <= a <= held0 && o.order.amt1 <= held1
                   else o.order.amt0 <= held0 && b <= held1)
               && (second || o.order.min0 <= a <= o.order.amt0)
               && (if o.order.pool.V2? then o.order.amt0 <= held0 && o.order.amt1 <= held1
                   else if second then 1 <= b else 1 <= a <= held0 && o.order.amt1 <= held1)
  {
    hide Safe, Run, Minted, Bal;
    if o.order.pool in d.pools && o.order.amt0 >= 1 && o.order.amt1 >= 1 {
      var p := d.pools[o.order.pool];
      HeldRow(d, o.order.pool);
      QuotientsAre(o.order.amt0, o.order.amt1, p.amt0, p.amt1, a, b);
      AddPlanned(d, hash, holder, o.order, height);
      if OrderPlan(d, hash, holder, o.order, height).Ok? {
        var v := AddAmounts(o.order.amt0, o.order.amt1, o.order.min0, o.order.min1, p.amt0, p.amt1).value;
        AddRuns(d, hash, holder, o, height, v.0, v.1);
      }
    }
  }

  lemma QuotientsAre(amt0: nat, amt1: nat, r0: nat, r1: nat, a: nat, b: nat)
    requires r0 > 0 && r1 > 0 && FloorOf(b, amt0 * r1, r0) && FloorOf(a, amt1 * r0, r1)
    ensures b == amt0 * r1 / r0 && a == amt1 * r0 / r1
  {
    FloorIs(amt0 * r1, r0);
    FloorIs(amt1 * r0, r1);
    FloorUnique(b, amt0 * r1 / r0, amt0 * r1, r0);
    FloorUnique(a, amt1 * r0 / r1, amt1 * r0, r1);
  }

  lemma AddPlanned(d: Database, hash: string, holder: Signer, o: Order, height: nat)
    requires o.Add? && o.pool in d.pools && o.amt0 >= 1 && o.amt1 >= 1
    requires d.pools[o.pool].amt0 > 0 && d.pools[o.pool].amt1 > 0
    ensures var p := d.pools[o.pool];
            OrderPlan(d, hash, holder, o, height).Ok? <==>
            && AddVerified(Bal(d, p.tick0, holder), Bal(d, p.tick1, holder), p, o.amt0, o.amt1, o.min0, o.min1)
            && AddAmounts(o.amt0, o.amt1, o.min0, o.min1, p.amt0, p.amt1).Ok?
  {
    hide Minted, AddVerified, AddAmounts;
  }

  lemma AddRuns(d: Database, hash: string, holder: Signer, o: PairOrder, height: nat, v0: nat, v1: nat)
    requires Safe(d) && o.order.Add? && OrderPlan(d, hash, holder, o.order, height).Ok?
    requires o.order.pool in d.pools && o.order.amt0 >= 1 && o.order.amt1 >= 1
    requires d.pools[o.order.pool].amt0 > 0 && d.pools[o.order.pool].amt1 > 0
    requires AddAmounts(o.order.amt0, o.order.amt1, o.order.min0, o.order.min1, d.pools[o.order.pool].amt0,
                        d.pools[o.order.pool].amt1) == Ok((v0, v1))
    ensures var p := d.pools[o.order.pool];
            RunOrder(d, hash, holder, o, height).Ok? <==>
            && 1 <= (if o.order.pool.V1? then v0 else o.order.amt0) <= Bal(d, p.tick0, holder)
            && 1 <= (if o.order.pool.V1? then v1 else o.order.amt1) <= Bal(d, p.tick1, holder)
  {
    hide Apply, Safe, Minted, AddAmounts, AddVerified, Delta, SupplyDelta, Bal;
    var id, p := o.order.pool, d.pools[o.order.pool];
    TicksApart(d, id);
    HeldRow(d, id);
    var pay0, pay1 := if id.V1? then v0 else o.order.amt0, if id.V1? then v1 else o.order.amt1;
    var first, second := Move(p.tick0, holder, Reserves(id), pay0), Move(p.tick1, holder, Reserves(id), pay1);
    var mint := MintTo(LpTick(id), holder, Minted(v0, v1, p.amt0, p.amt1, p.total));
    assert OrderPlan(d, hash, holder, o.order, height).value.script == [first] + ([second] + ([mint] + ([Refresh(id)] + [])));
    RunFirst(d, first, [second] + ([mint] + ([Refresh(id)] + [])), height);
    MoveGoes(d, p.tick0, holder, Reserves(id), pay0, height);
    if Apply(d, first, height).Ok? {
      var d1 := Apply(d, first, height).value;
      StepEffect(d, first, height, p.tick1, holder);
      OtherTick(first, p.tick1, holder);
      LedgerlyStep(d, first, height);
      RunFirst(d1, second, [mint] + ([Refresh(id)] + []), height);
      MoveGoes(d1, p.tick1, holder, Reserves(id), pay1, height);
      if Apply(d1, second, height).Ok? {
        var d2 := Apply(d1, second, height).value;
        LedgerlyStep(d1, second, height);
        RunFirst(d2, mint, [Refresh(id)] + [], height);
        MintGoes(d2, LpTick(id), holder, mint.units, height);
        var d3 := Apply(d2, mint, height).value;
        LedgerlyStep(d2, mint, height);
        RunFirst(d3, Refresh(id), [], height);
        RefreshGoes(d3, id, height);
      }
    }
  }

  // ---------------------------------------------------------------------------------------------------------------
  // Remove
  // ---------------------------------------------------------------------------------------------------------------

  lemma RemoveCloses(d: Database, hash: string, holder: Signer, o: PairOrder, height: nat)
    requires o.order.Remove? && RunOrder(d, hash, holder, o, height).Ok?
    ensures var id, l := o.order.pool, o.order.liquidity;
            && id in d.pools && 1 <= l <= d.pools[id].total
            && var p := d.pools[id];
               var out0, out1 := Redeemed(l, p.amt0, p.total), Redeemed(l, p.amt1, p.total);
               && RunOrder(d, hash, holder, o, height).value.1 ==
                  (if o.doge then (if p.tick0 == WDOGE then out0 else 0) + (if p.tick1 == WDOGE then out1 else 0) else 0)
               && Ok(RunOrder(d, hash, holder, o, height).value.0) ==
                  Run(d, RemoveMoves(holder, id, p, out0, out1, l) + Closing(id, hash, false), height)
  {
    hide Run, Redeemed;
    var id, l, p := o.order.pool, o.order.liquidity, d.pools[o.order.pool];
    assert OrderPlan(d, hash, holder, o.order, height).value.script ==
           RemoveMoves(holder, id, p, Redeemed(l, p.amt0, p.total), Redeemed(l, p.amt1, p.total), l)
           + Closing(id, hash, false);
  }

  /** A remove that goes through pays out the two floored shares of the reserves for the liquidity it burns. */
  lemma RemovePays(d: Database, hash: string, holder: Signer, o: PairOrder, height: nat)
    requires Safe(d) && o.order.Remove? && RunOrder(d, hash, holder, o, height).Ok?
    ensures var id, l, r := o.order.pool, o.order.liquidity, RunOrder(d, hash, holder, o, height).value;
            && id in d.pools && 1 <= l <= d.pools[id].total
            && var p := d.pools[id];
               var out0 := Bal(d, p.tick0, Reserves(id)) - Bal(r.0, p.tick0, Reserves(id));
               var out1 := Bal(d, p.tick1, Reserves(id)) - Bal(r.0, p.tick1, Reserves(id));
               && FloorOf(out0, l * p.amt0, p.total) && FloorOf(out1, l * p.amt1, p.total)
               && Exchanges(d, r.0, holder, Reserves(id), p.tick0, p.tick1, 0 - out0, 0 - out1, LpTick(id), 0 - l)
               && RowsAfter(d, r.0, id, p.tick0, p.tick1)
               && r.1 == (if o.doge && p.tick0 == WDOGE then out0 else 0) + (if o.doge && p.tick1 == WDOGE then out1 else 0)
  {
    hide Safe, Run, Redeemed, Bal, Issued, RowsAfter, Total, SupplyTotal, Exchanges;
    RemoveCloses(d, hash, holder, o, height);
    var id, l, p := o.order.pool, o.order.liquidity, d.pools[o.order.pool];
    TicksApart(d, id);
    var out0, out1 := Redeemed(l, p.amt0, p.total), Redeemed(l, p.amt1, p.total);
    RedeemedIs(l, p.amt0, p.total);
    RedeemedIs(l, p.amt1, p.total);
    var moves := RemoveMoves(holder, id, p, out0, out1, l);
    RemoveChanges(d, RunOrder(d, hash, holder, o, height).value.0, moves, id, hash, height);
    RowsClosed(d, moves, id, hash, false, height);
  }

  lemma RedeemedIs(l: nat, r: nat, total: nat)
    requires total > 0
    ensures FloorOf(Redeemed(l, r, total), l * r, total)
  {
    FloorIs(l * r, total);
  }

  lemma RemoveChanges(d: Database, m: Database, moves: seq<Step>, id: PoolId, hash: string, height: nat)
    requires |moves| == 3 && moves[0].Move? && moves[1].Move? && moves[2].BurnFrom?
    requires moves[0].tick != LpTick(id) && moves[1].tick != LpTick(id) && moves[2].tick == LpTick(id)
    requires moves[0].tick != moves[1].tick && moves[0].from == moves[1].from
    requires moves[0].to == moves[1].to == moves[2].from && moves[0].from != moves[0].to
    requires Run(d, moves + Closing(id, hash, false), height) == Ok(m)
    ensures Exchanges(d, m, moves[2].from, moves[0].from, moves[0].tick, moves[1].tick, 0 - moves[0].amt, 0 - moves[1].amt,
                      LpTick(id), 0 - moves[2].units)
    ensures Bal(m, moves[0].tick, moves[0].from) == Bal(d, moves[0].tick, moves[0].from) - moves[0].amt
    ensures Bal(m, moves[1].tick, moves[1].from) == Bal(d, moves[1].tick, moves[1].from) - moves[1].amt
  {
    hide Run, Total, SupplyTotal, Bal, Issued, Closing;
    assert moves == [moves[0], moves[1], moves[2]];
    forall t: Tick, a: Address
      ensures Bal(m, t, a) == Bal(d, t, a) + Paid(t, a, moves[0].tick, moves[0].to, moves[0].from, 0 - moves[0].amt)
                              + Paid(t, a, moves[1].tick, moves[1].to, moves[1].from, 0 - moves[1].amt)
                              + (if t == LpTick(id) && a == moves[2].from then 0 - moves[2].units else 0)
    {
      AfterRun(d, moves, id, hash, false, height, t, a);
      Total3(moves[0], moves[1], moves[2], t, a);
    }
    forall t: Tick
      ensures Issued(m, t) == Issued(d, t) + if t == LpTick(id) then 0 - moves[2].units else 0
    {
      AfterRun(d, moves, id, hash, false, height, t, moves[0].to);
      Total3(moves[0], moves[1], moves[2], t, moves[0].to);
    }
  }

  /** A remove is accepted if and only if the holder has the liquidity and both of its shares are something. */
  lemma RemoveIff(d: Database, hash: string, holder: Signer, o: PairOrder, height: nat)
    requires Safe(d) && o.order.Remove?
    ensures RunOrder(d, hash, holder, o, height).Ok? <==>
            && o.order.pool in d.pools && 1 <= o.order.liquidity <= Bal(d, LpTick(o.order.pool), holder)
            && o.order.liquidity * d.pools[o.order.pool].amt0 >= d.pools[o.order.pool].total
            && o.order.liquidity * d.pools[o.order.pool].amt1 >= d.pools[o.order.pool].total
  {
    hide Safe, Run, Redeemed, Bal, Issued;
    var id, l := o.order.pool, o.order.liquidity;
    if id in d.pools && l >= 1 {
      var p := d.pools[id];
      HeldRow(d, id);
      SafeConserves(d);
      OneHolder(d, LpTick(id), holder);
      if l <= p.total {
        SharesHeld(l, p.amt0, p.total);
        SharesHeld(l, p.amt1, p.total);
        RemoveRuns(d, hash, holder, o, height, Redeemed(l, p.amt0, p.total), Redeemed(l, p.amt1, p.total));
      }
    }
  }

  lemma SafeConserves(d: Database)
    requires Safe(d)
    ensures ConservedAll(d)
  {}

  /** A share is at most the reserve, and something exactly when the product reaches the total. */
  lemma SharesHeld(l: nat, r: nat, total: nat)
    requires 0 < total && l <= total
    ensures Redeemed(l, r, total) <= r
    ensures 1 <= Redeemed(l, r, total) <==> l * r >= total
  {
    RedeemedIs(l, r, total);
    var q := Redeemed(l, r, total);
    MulMono(l, total, r);
    MulMono(r + 1, q, total);
    MulMono(1, q, total);
  }

  lemma RemoveRuns(d: Database, hash: string, holder: Signer, o: PairOrder, height: nat, out0: nat, out1: nat)
    requires Safe(d) && o.order.Remove? && o.order.pool in d.pools && 1 <= o.order.liquidity <= d.pools[o.order.pool].total
    requires out0 == Redeemed(o.order.liquidity, d.pools[o.order.pool].amt0, d.pools[o.order.pool].total)
    requires out1 == Redeemed(o.order.liquidity, d.pools[o.order.pool].amt1, d.pools[o.order.pool].total)
    requires out0 <= d.pools[o.order.pool].amt0 && out1 <= d.pools[o.order.pool].amt1
    ensures RunOrder(d, hash, holder, o, height).Ok? <==>
            out0 >= 1 && out1 >= 1 && o.order.liquidity <= Bal(d, LpTick(o.order.pool), holder)
  {
    hide Apply, Safe, Redeemed, Delta, SupplyDelta, Bal, ConservedAll;
    var id, l, p := o.order.pool, o.order.liquidity, d.pools[o.order.pool];
    TicksApart(d, id);
    HeldRow(d, id);
    var first, second := Move(p.tick0, Reserves(id), holder, out0), Move(p.tick1, Reserves(id), holder, out1);
    var burn := BurnFrom(LpTick(id), holder, l);
    assert OrderPlan(d, hash, holder, o.order, height).value.script == [first] + ([second] + ([burn] + ([Refresh(id)] + [])));
    RunFirst(d, first, [second] + ([burn] + ([Refresh(id)] + [])), height);
    MoveGoes(d, p.tick0, Reserves(id), holder, out0, height);
    if Apply(d, first, height).Ok? {
      var d1 := Apply(d, first, height).value;
      StepEffect(d, first, height, p.tick1, Reserves(id));
      OtherTick(first, p.tick1, Reserves(id));
      StepEffect(d, first, height, LpTick(id), holder);
      OtherTick(first, LpTick(id), holder);
      LedgerlyStep(d, first, height);
      SafeConserves(d);
      ApplyConserves(d, first, height);
      RunFirst(d1, second, [burn] + ([Refresh(id)] + []), height);
      MoveGoes(d1, p.tick1, Reserves(id), holder, out1, height);
      if Apply(d1, second, height).Ok? {
        var d2 := Apply(d1, second, height).value;
        StepEffect(d1, second, height, LpTick(id), holder);
        OtherTick(second, LpTick(id), holder);
        LedgerlyStep(d1, second, height);
        ApplyConserves(d1, second, height);
        RunFirst(d2, burn, [Refresh(id)] + [], height);
        BurnIff(d2, LpTick(id), holder, l, height);
        if Apply(d2, burn, height).Ok? {
          LedgerlyStep(d2, burn, height);
          RunFirst(Apply(d2, burn, height).value, Refresh(id), [], height);
          RefreshGoes(Apply(d2, burn, height).value, id, height);
        }
      }
    }
  }

  lemma BurnIff(d: Database, tick: Tick, from: Party, units: nat, height: nat)
    requires ConservedAll(d) && units >= 1
    ensures Apply(d, BurnFrom(tick, from, units), height).Ok? <==> units <= Bal(d, tick, from)
  {
    hide ConservedAll;
    if units <= Bal(d, tick, from) {
      BurnGoes(d, tick, from, units, height);
    }
    if Apply(d, BurnFrom(tick, from, units), height).Ok? {
      MoveNeeds(d, BurnFrom(tick, from, units), height);
    }
  }

  // ---------------------------------------------------------------------------------------------------------------
  // Create
  // ---------------------------------------------------------------------------------------------------------------

  /** What a create changes when `base` is issued. */
  ghost predicate Creates(d: Database, m: Database, holder: Address, id: PoolId, tick0: Tick, tick1: Tick, amt0: int,
                          amt1: int, base: int) {
    && (forall t, a :: Bal(m, t, a) == Bal(d, t, a) + Paid(t, a, tick0, holder, Reserves(id), amt0)
                                       + Paid(t, a, tick1, holder, Reserves(id), amt1)
                                       + (if t == LpTick(id) && a == holder then base - 1000 else 0)
                                       + (if t == LpTick(id) && a == Reserves(id) then 1000 else 0))
    && (forall t :: Issued(m, t) == Issued(d, t) + if t == LpTick(id) then base else 0)
    && id in m.pools
    && m.pools == d.pools[id := Pool(tick0, tick1, Bal(m, tick0, Reserves(id)), Bal(m, tick1, Reserves(id)),
                                     Issued(m, LpTick(id)))]
    && m.curves == d.curves && m.stakes == d.stakes
  }

  lemma CreateScriptPays(d: Database, holder: Party, id: PoolId, tick0: Tick, tick1: Tick, amt0: int, amt1: int, height: nat)
    requires CreateScript(holder, id, tick0, tick1, amt0, amt1).Ok?
    requires Run(d, CreateScript(holder, id, tick0, tick1, amt0, amt1).value, height).Ok?
    ensures var m := Run(d, CreateScript(holder, id, tick0, tick1, amt0, amt1).value, height).value;
            var base := Issued(m, LpTick(id));
            && id !in d.pools && Issued(d, LpTick(id)) == 0
            && base * base <= amt0 * amt1 < (base + 1) * (base + 1)
            && Creates(d, m, holder, id, tick0, tick1, amt0, amt1, base)
  {
    hide Run, Bal, Issued, Isqrt, Total, SupplyTotal, Apply;
    var open_ := OpenPool(id, tick0, tick1);
    var moves := CreateMoves(holder, id, tick0, tick1, amt0, amt1);
    var script := CreateScript(holder, id, tick0, tick1, amt0, amt1).value;
    assert script == [open_] + (moves + Closing(id, "", false));
    RunFirst(d, open_, moves + Closing(id, "", false), height);
    var d1 := Apply(d, open_, height).value;
    OpenedRows(d, id, tick0, tick1, height);
    CreateChanges(d, d1, Run(d, script, height).value, moves, id, "", holder, tick0, tick1, amt0, amt1, height);
    RowsClosed(d1, moves, id, "", false, height);
  }

  /** A pair that is created holds what its creator pays in; the root of the product is issued, a thousand of it to the
      pair itself and the rest to the creator. */
  lemma CreatePays(d: Database, hash: string, holder: Signer, o: PairOrder, height: nat)
    requires o.order.Create? && RunOrder(d, hash, holder, o, height).Ok?
    ensures var id, r := o.order.pool, RunOrder(d, hash, holder, o, height).value;
            var base := Issued(r.0, LpTick(id));
            && o.order.amt0 >= 1 && o.order.amt1 >= 1
            && id !in d.pools && Issued(d, LpTick(id)) == 0
            && base * base <= o.order.amt0 * o.order.amt1 < (base + 1) * (base + 1)
            && Creates(d, r.0, holder, id, o.order.tick0, o.order.tick1, o.order.amt0, o.order.amt1, base)
            && r.1 == 0
  {
    hide Run, Isqrt, Creates, Issued;
    CreateScriptPays(d, holder, o.order.pool, o.order.tick0, o.order.tick1, o.order.amt0, o.order.amt1, height);
  }

  lemma OpenedRows(d: Database, id: PoolId, tick0: Tick, tick1: Tick, height: nat)
    requires Apply(d, OpenPool(id, tick0, tick1), height).Ok?
    ensures var f := Apply(d, OpenPool(id, tick0, tick1), height).value;
            && id !in d.pools && f.pools == d.pools[id := Pool(tick0, tick1, 0, 0, 0)]
            && Issued(d, LpTick(id)) == 0
            && f.curves == d.curves && f.stakes == d.stakes
            && (forall t, a :: Bal(f, t, a) == Bal(d, t, a))
            && (forall t :: Issued(f, t) == Issued(d, t))
  {
    hide Bal, Issued;
    var s := OpenPool(id, tick0, tick1);
    var f := Apply(d, s, height).value;
    forall t: Tick, a: Address
      ensures Bal(f, t, a) == Bal(d, t, a)
    {
      StepEffect(d, s, height, t, a);
    }
    forall t: Tick
      ensures Issued(f, t) == Issued(d, t)
    {
      StepEffect(d, s, height, t, Nobody);
    }
    NotIssued(d, id, tick0, tick1, height);
  }

  lemma NotIssued(d: Database, id: PoolId, tick0: Tick, tick1: Tick, height: nat)
    requires Apply(d, OpenPool(id, tick0, tick1), height).Ok?
    ensures Issued(d, LpTick(id)) == 0
    ensures id !in d.pools
    ensures Apply(d, OpenPool(id, tick0, tick1), height).value.pools == d.pools[id := Pool(tick0, tick1, 0, 0, 0)]
  {}

  lemma CreateChanges(d: Database, d1: Database, m: Database, moves: seq<Step>, id: PoolId, hash: string, holder: Party,
                      tick0: Tick, tick1: Tick, amt0: nat, amt1: nat, height: nat)
    requires amt0 >= 1 && amt1 >= 1 && Isqrt(amt0 * amt1) > MINI_LIQUIDITY
    requires moves == CreateMoves(holder, id, tick0, tick1, amt0, amt1)
    requires Run(d1, moves + Closing(id, hash, false), height) == Ok(m)
    requires (forall t, a :: Bal(d1, t, a) == Bal(d, t, a)) && (forall t :: Issued(d1, t) == Issued(d, t))
    ensures forall t, a :: Bal(m, t, a) == Bal(d, t, a) + Paid(t, a, tick0, holder, Reserves(id), amt0)
                             + Paid(t, a, tick1, holder, Reserves(id), amt1)
                             + (if t == LpTick(id) && a == holder then Isqrt(amt0 * amt1) - 1000 else 0)
                             + (if t == LpTick(id) && a == Reserves(id) then 1000 else 0)
    ensures forall t :: Issued(m, t) == Issued(d, t) + if t == LpTick(id) then Isqrt(amt0 * amt1) else 0
  {
    hide Run, Total, SupplyTotal, Bal, Issued, Closing, Isqrt;
    forall t: Tick, a: Address
      ensures Bal(m, t, a) == Bal(d, t, a) + Paid(t, a, tick0, holder, Reserves(id), amt0)
                              + Paid(t, a, tick1, holder, Reserves(id), amt1)
                              + (if t == LpTick(id) && a == holder then Isqrt(amt0 * amt1) - 1000 else 0)
                              + (if t == LpTick(id) && a == Reserves(id) then 1000 else 0)
    {
      AfterRun(d1, moves, id, hash, false, height, t, a);
      Total4(moves[0], moves[1], moves[2], moves[3], t, a);
    }
    forall t: Tick
      ensures Issued(m, t) == Issued(d, t) + if t == LpTick(id) then Isqrt(amt0 * amt1) else 0
    {
      AfterRun(d1, moves, id, hash, false, height, t, holder);
      Total4(moves[0], moves[1], moves[2], moves[3], t, holder);
    }
  }

  /** A create is accepted if and only if it names two tokens (with v1, those of the pair), offers more than the locked
      minimum's square, the names are new, and the creator has both payments. */
  lemma CreateOrderIff(d: Database, hash: string, holder: Signer, o: PairOrder, height: nat)
    requires o.order.Create?
    ensures RunOrder(d, hash, holder, o, height).Ok? <==>
            && o.order.amt0 >= 1 && o.order.amt1 >= 1 && o.order.tick0 != o.order.tick1
            && (o.order.pool.V1? ==> o.order.pool == V1(o.order.tick0, o.order.tick1))
            && o.order.amt0 * o.order.amt1 >= 1001 * 1001
            && o.order.pool !in d.pools && LpTick(o.order.pool) !in BookOf(d, LpTick(o.order.pool)).tokens
            && o.order.amt0 <= Bal(d, o.order.tick0, holder) && o.order.amt1 <= Bal(d, o.order.tick1, holder)
  {
    hide Run, Bal, Isqrt;
    if o.order.amt0 >= 1 && o.order.amt1 >= 1 {
      RootAbove(o.order.amt0, o.order.amt1);
    }
    if CreateScript(holder, o.order.pool, o.order.tick0, o.order.tick1, o.order.amt0, o.order.amt1).Ok? {
      CreateIff(d, holder, o.order.pool, o.order.tick0, o.order.tick1, o.order.amt0, o.order.amt1, height);
    }
  }

  lemma RootAbove(a0: nat, a1: nat)
    ensures Isqrt(a0 * a1) > MINI_LIQUIDITY <==> a0 * a1 >= 1001 * 1001
  {
    var r := Isqrt(a0 * a1);
    if r > 1000 {
      ProductMono(1001, r, 1001, r);
    } else {
      ProductMono(r + 1, 1001, r + 1, 1001);
    }
  }
}
