/** Pair transactions with the coins around them: what the router deposits before the orders, and withdraws after them.
    */
module Routing {
  import opened Results
  import opened Names
  import opened Ledger
  import opened Db
  import opened Quotes
  import opened Swap
  import opened Execute
  import opened Effects
  import opened PoolSafety
  import opened OrderSafety
  import opened RunSafety
  import opened PumpSafety
  import opened Graduation
  import opened Traders
  import opened Receipts
  import opened SingleOps

  /** Coins in or out: the holder's WDOGE and what is issued of it move together, and no other balance moves. */
  ghost predicate Coined(d: Database, e: Database, holder: Address, coins: int) {
    && (forall t, a :: Bal(e, t, a) == Bal(d, t, a) + if t == WDOGE && a == holder then coins else 0)
    && (forall t :: Issued(e, t) == Issued(d, t) + if t == WDOGE then coins else 0)
    && e == d.(drc20 := e.drc20) && e.drc20.tokens.Keys == d.drc20.tokens.Keys
  }

  lemma PaidIn(d: Database, holder: Signer, amt: int, height: nat)
    ensures PayIn(d, holder, amt, height).Ok? <==> amt <= 0 || WDOGE in d.drc20.tokens
    ensures PayIn(d, holder, amt, height).Ok? ==>
              Coined(d, PayIn(d, holder, amt, height).value, holder, if amt > 0 then amt else 0)
  {
    hide Bal, Issued, Apply;
    if amt > 0 {
      var s := MintTo(WDOGE, holder, amt);
      assert [s] == [s] + [];
      RunFirst(d, s, [], height);
      MintGoes(d, WDOGE, holder, amt, height);
      if Apply(d, s, height).Ok? {
        OneStepCoins(d, s, holder, amt, height);
      }
    }
  }

  lemma PaidOut(d: Database, holder: Signer, amt: nat, height: nat)
    requires ConservedAll(d)
    ensures PayOut(d, holder, amt, height).Ok? <==> amt <= Bal(d, WDOGE, holder)
    ensures PayOut(d, holder, amt, height).Ok? ==> Coined(d, PayOut(d, holder, amt, height).value, holder, 0 - amt)
  {
    hide Bal, Issued, Apply, ConservedAll;
    if amt > 0 {
      var s := BurnFrom(WDOGE, holder, amt);
      assert [s] == [s] + [];
      RunFirst(d, s, [], height);
      BurnIff(d, WDOGE, holder, amt, height);
      if Apply(d, s, height).Ok? {
        OneStepCoins(d, s, holder, 0 - amt, height);
      }
    }
  }

  lemma OneStepCoins(d: Database, s: Step, holder: Signer, coins: int, height: nat)
    requires Apply(d, s, height).Ok?
    requires (s.MintTo? && s.tick == WDOGE && s.to == holder && coins == s.units)
          || (s.BurnFrom? && s.tick == WDOGE && s.from == holder && coins == 0 - s.units)
    ensures Coined(d, Apply(d, s, height).value, holder, coins)
  {
    hide Bal, Issued, Apply;
    var e := Apply(d, s, height).value;
    forall t: Tick, a: Address
      ensures Bal(e, t, a) == Bal(d, t, a) + if t == WDOGE && a == holder then coins else 0
    {
      StepEffect(d, s, height, t, a);
    }
    forall t: Tick
      ensures Issued(e, t) == Issued(d, t) + if t == WDOGE then coins else 0
    {
      StepEffect(d, s, height, t, holder);
    }
    LedgerlyStep(d, s, height);
    OnlyDrc(d, s, height);
  }

  lemma OnlyDrc(d: Database, s: Step, height: nat)
    requires Apply(d, s, height).Ok? && ((s.MintTo? && s.tick == WDOGE) || (s.BurnFrom? && s.tick == WDOGE))
    ensures Apply(d, s, height).value.meme20 == d.meme20
  {
    hide Mint, Burn;
  }

  // ---------------------------------------------------------------------------------------------------------------
  // Several orders
  // ---------------------------------------------------------------------------------------------------------------

  /** The deposits of a transaction are the sum of its orders' deposits, and fail with any of them. */
  lemma {:induction false} DepositsAppend(pools: map<PoolId, Pool>, a: seq<PairOrder>, b: seq<PairOrder>)
    ensures Deposits(pools, a + b) ==
            if Deposits(pools, a).Ok? && Deposits(pools, b).Ok? then Ok(Deposits(pools, a).value + Deposits(pools, b).value)
            else Failed
    decreases |a|
  {
    hide DepositFor;
    if a == [] {
      assert a + b == b;
    } else {
      assert (a + b)[0] == a[0] && (a + b)[1..] == a[1..] + b;
      DepositsAppend(pools, a[1..], b);
    }
  }

  /** Its orders run one after the other, and owe the sum of what each owes. */
  lemma {:induction false} OrdersAppend(d: Database, hash: string, holder: Signer, a: seq<PairOrder>, b: seq<PairOrder>,
                                        height: nat)
    ensures var first := RunOrders(d, hash, holder, a, height);
            RunOrders(d, hash, holder, a + b, height) ==
            if first.Failed? then Failed
            else
              var second := RunOrders(first.value.0, hash, holder, b, height);
              if second.Failed? then Failed else Ok((second.value.0, first.value.1 + second.value.1))
    decreases |a|
  {
    hide RunOrder;
    if a == [] {
      assert a + b == b;
    } else {
      assert (a + b)[0] == a[0] && (a + b)[1..] == a[1..] + b;
      if RunOrder(d, hash, holder, a[0], height).Ok? {
        OrdersAppend(RunOrder(d, hash, holder, a[0], height).value.0, hash, holder, a[1..], b, height);
      }
    }
  }

  // ---------------------------------------------------------------------------------------------------------------
  // One order
  // ---------------------------------------------------------------------------------------------------------------

  function SideCoins(tick: Tick, amt: int): int {
    if tick == WDOGE then amt else 0
  }

  /** The coins a transaction of one order brings in are the WDOGE it offers: on both sides of a create or an add, on
      the input of a swap, none for a remove or an order that does not ask for coins. A v2 create fails here, and so
      does a v2 add to a pair that does not exist. */
  lemma DepositIs(pools: map<PoolId, Pool>, o: PairOrder)
    ensures var r, q := Deposits(pools, [o]), o.order;
            && (!o.doge || q.Remove? ==> r == Ok(0))
            && (o.doge && q.Exec? ==> r == Ok(SideCoins(q.input, q.amt)))
            && (o.doge && q.Create? && q.pool.V1? ==> r == Ok(SideCoins(q.tick0, q.amt0) + SideCoins(q.tick1, q.amt1)))
            && (o.doge && q.Add? && q.pool.V1? ==>
                  r == Ok(SideCoins(q.pool.tick0, q.amt0) + SideCoins(q.pool.tick1, q.amt1)))
            && (o.doge && (q.Create? || q.Add?) && q.pool.V2? && q.pool !in pools ==> r == Failed)
            && (o.doge && q.Add? && q.pool in pools && q.pool.V2? ==>
                  r == Ok(SideCoins(pools[q.pool].tick0, q.amt0) + SideCoins(pools[q.pool].tick1, q.amt1)))
  {
    assert [o][1..] == [];
  }

  /** A transaction of any orders: its coins come in as the holder's WDOGE and stay so when an order fails, or when the
      holder does not have, after all of them, the WDOGE they owe; otherwise that leaves as coins. */
  lemma PairRouted(d: Database, hash: string, holder: Signer, os: seq<PairOrder>, height: nat) returns (f: Database)
    requires Safe(d)
    ensures var e := PairTx(d, hash, holder, os, height);
            var coins := if Deposits(d.pools, os).Ok? then Deposits(d.pools, os).value else 0;
            && (Deposits(d.pools, os).Failed? || (coins > 0 && WDOGE !in d.drc20.tokens) ==> f == d && e == d)
            && (Deposits(d.pools, os).Ok? && (coins <= 0 || WDOGE in d.drc20.tokens) ==>
                  && Coined(d, f, holder, if coins > 0 then coins else 0) && Safe(f)
                  && var r := RunOrders(f, hash, holder, os, height);
                     if r.Ok? && r.value.1 <= Bal(r.value.0, WDOGE, holder)
                     then Coined(r.value.0, e, holder, 0 - r.value.1)
                     else e == f)
  {
    hide RunOrders, PayIn, PayOut, Deposits, Safe, Coined, ConservedAll, Bal;
    f := d;
    if Deposits(d.pools, os).Ok? {
      var coins := Deposits(d.pools, os).value;
      PaidIn(d, holder, coins, height);
      if PayIn(d, holder, coins, height).Ok? {
        f := PayIn(d, holder, coins, height).value;
        PaysSafe(d, holder, coins, height);
        KeepsSafe(d, f, true);
        if RunOrders(f, hash, holder, os, height).Ok? {
          var r := RunOrders(f, hash, holder, os, height).value;
          OrdersSafe(f, hash, holder, os, height);
          KeepsSafe(f, r.0, true);
          SafeConserves(r.0);
          PaidOut(r.0, holder, r.1, height);
        }
      }
    }
  }

  lemma OneRun(f: Database, hash: string, holder: Signer, o: PairOrder, height: nat)
    ensures RunOrders(f, hash, holder, [o], height) == RunOrder(f, hash, holder, o, height)
  {
    hide RunOrder;
    assert [o][1..] == [];
  }

  /** What an order owes in WDOGE it has just paid the holder. */
  lemma OwedIsHeld(d: Database, hash: string, holder: Signer, o: PairOrder, height: nat)
    requires Safe(d) && RunOrder(d, hash, holder, o, height).Ok?
    ensures RunOrder(d, hash, holder, o, height).value.1 <= Bal(RunOrder(d, hash, holder, o, height).value.0, WDOGE, holder)
  {
    hide RunOrder, Safe, Bal, Issued, RowsAfter;
    match o.order
    case Create(_, _, _, _, _) => CreatePays(d, hash, holder, o, height);
    case Add(_, _, _, _, _) =>
      var v0, v1 := AddPays(d, hash, holder, o, height);
    case Remove(pool, _) =>
      RemovePays(d, hash, holder, o, height);
      TicksApart(d, pool);
      WdogeIsNoShare(pool);
    case Exec(_, _, _, _) => SwapPays(d, hash, holder, o, height);
  }

  lemma WdogeIsNoShare(id: PoolId)
    ensures WDOGE != LpTick(id)
  {}

  /** What the row of a swap's pool prices it at. */
  ghost predicate Priced(d: Database, q: Order, out: nat)
    requires q.Exec?
  {
    q.pool in d.pools && q.amt >= 1 ==>
      var p, x := d.pools[q.pool], q.amt - 3 * (q.amt / 1000);
      var zero := q.input == p.tick0;
      FloorOf(out, x * (if zero then p.amt1 else p.amt0), (if zero then p.amt0 else p.amt1) + x)
  }

  /** Whether a swap priced at `out` is accepted from somebody with `held` of its input. */
  ghost predicate CanSwap(d: Database, holder: Signer, q: Order, height: nat, out: int, held: int)
    requires q.Exec?
  {
    && q.pool in d.pools && q.amt >= 1 && (q.input == d.pools[q.pool].tick0 || q.input == d.pools[q.pool].tick1)
    && q.amt <= held
    && 1 <= out && q.minOut <= out && (q.pool.V1? ==> q.minOut >= 0)
    && (q.pool.V2? ==> FirstToday(d, PairV2, holder, height))
  }

  /** What it then changes, with `coins` in and, when the output leaves as coins, `out` of them out. */
  ghost predicate Swaps(d: Database, e: Database, holder: Signer, q: Order, out: int, coins: int, doge: bool)
    requires q.Exec? && q.pool in d.pools
  {
    var p := d.pools[q.pool];
    var tickOut := if q.input == p.tick0 then p.tick1 else p.tick0;
    var net := coins - if doge && tickOut == WDOGE then out else 0;
    && (forall t, a :: Bal(e, t, a) == Bal(d, t, a) + Paid(t, a, q.input, holder, Reserves(q.pool), q.amt)
                                       + Paid(t, a, tickOut, Reserves(q.pool), holder, out)
                                       + (if t == WDOGE && a == holder then net else 0))
    && (forall t :: Issued(e, t) == Issued(d, t) + if t == WDOGE then net else 0)
  }

  lemma SwapAlone(d: Database, hash: string, holder: Signer, o: PairOrder, height: nat, out: nat)
    requires Safe(d) && o.order.Exec? && Priced(d, o.order, out) && OnRecord(d, hash, height)
    ensures var q, r := o.order, RunOrder(d, hash, holder, o, height);
            && (r.Ok? <==> CanSwap(d, holder, q, height, out, Bal(d, q.input, holder)))
            && (r.Ok? ==>
                  && q.pool in d.pools
                  && Swaps(d, r.value.0, holder, q, out, 0, false)
                  && r.value.1 <= Bal(r.value.0, WDOGE, holder)
                  && r.value.1 == if o.doge && WDOGE == (if q.input == d.pools[q.pool].tick0 then d.pools[q.pool].tick1
                                                         else d.pools[q.pool].tick0) then out else 0)
  {
    hide RunOrder, Safe, Bal, Issued, RowsAfter, FirstToday, OnRecord;
    SwapIff(d, hash, holder, o, height, out);
    if RunOrder(d, hash, holder, o, height).Ok? {
      OwedIsHeld(d, hash, holder, o, height);
      SwapPays(d, hash, holder, o, height);
      var p, x := d.pools[o.order.pool], o.order.amt - 3 * (o.order.amt / 1000);
      var zero := o.order.input == p.tick0;
      var tickOut := if zero then p.tick1 else p.tick0;
      FloorUnique(out, Bal(RunOrder(d, hash, holder, o, height).value.0, tickOut, holder) - Bal(d, tickOut, holder),
                  x * (if zero then p.amt1 else p.amt0), (if zero then p.amt0 else p.amt1) + x);
    }
  }

  lemma CoinsAround(d: Database, f: Database, m: Database, e: Database, holder: Signer, q: Order, out: int, coins: int,
                    doge: bool)
    requires Coined(d, f, holder, coins) && q.Exec? && q.pool in d.pools && Swaps(f, m, holder, q, out, 0, false)
    requires Coined(m, e, holder, 0 - if doge && WDOGE == (if q.input == d.pools[q.pool].tick0 then d.pools[q.pool].tick1
                                                           else d.pools[q.pool].tick0) then out else 0)
    ensures Swaps(d, e, holder, q, out, coins, doge)
  {
    hide Bal, Issued, Paid;
  }

  lemma SwapPair(d: Database, hash: string, holder: Signer, o: PairOrder, height: nat, out: nat)
    requires Safe(d) && o.order.Exec? && WDOGE in d.drc20.tokens && Priced(d, o.order, out) && OnRecord(d, hash, height)
    ensures var q, e := o.order, PairTx(d, hash, holder, [o], height);
            var coins := if o.doge && q.input == WDOGE && q.amt > 0 then q.amt else 0;
            if CanSwap(d, holder, q, height, out, Bal(d, q.input, holder) + coins)
            then Swaps(d, e, holder, q, out, coins, o.doge)
            else Coined(d, e, holder, coins)
  {
    hide RunOrder, PairTx, Safe, Bal, Issued, FirstToday, OnRecord, Deposits, Swaps, Priced;
    var coins := if o.doge && o.order.input == WDOGE && o.order.amt > 0 then o.order.amt else 0;
    DepositIs(d.pools, o);
    var f := PairRouted(d, hash, holder, [o], height);
    OneRun(f, hash, holder, o, height);
    SameRecord(d, f, PairV2, holder, hash, height);
    assert Priced(f, o.order, out) by { SamePrice(d, f, o.order, out); }
    SwapAlone(f, hash, holder, o, height, out);
    if RunOrder(f, hash, holder, o, height).Ok? {
      CoinsAround(d, f, RunOrder(f, hash, holder, o, height).value.0, PairTx(d, hash, holder, [o], height), holder, o.order,
                  out, coins, o.doge);
    }
  }

  lemma SamePrice(d: Database, f: Database, q: Order, out: nat)
    requires f.pools == d.pools && q.Exec? && Priced(d, q, out)
    ensures Priced(f, q, out)
  {}

  /** A transaction of one swap, v1 or v2, with coins or without: when it is accepted, what happens to every balance;
      and when not, that the coins it brought are the holder's WDOGE. */
  lemma SwapTx(d: Database, tx: Tx, o: PairOrder, height: nat, out: nat)
    requires Safe(d) && WDOGE in d.drc20.tokens && tx.hash !in d.infos
    requires (tx.op == PairV1Op([o]) || tx.op == PairV2Op([o])) && o.order.Exec? && Priced(d, o.order, out)
    ensures var q, e := o.order, ExecuteTx(d, tx, height);
            var coins := if o.doge && q.input == WDOGE && q.amt > 0 then q.amt else 0;
            if CanSwap(d, tx.holder, q, height, out, Bal(d, q.input, tx.holder) + coins)
            then Swaps(d, e, tx.holder, q, out, coins, o.doge)
            else Coined(Recorded(d, tx, height), e, tx.holder, coins)
  {
    hide PairTx, Safe, Bal, Issued, FirstToday, OnRecord;
    var r := Recorded(d, tx, height);
    RecordedKeeps(d, tx, height, false);
    KeepsSafe(d, r, false);
    SameBalances(d, tx, height);
    RecordedToday(d, tx, height);
    Itself(d, tx, height);
    SwapPair(r, tx.hash, tx.holder, o, height, out);
  }

  /** A transaction of any orders is the router on the tables with its own row. */
  lemma PairOp(d: Database, tx: Tx, height: nat)
    requires (tx.op.PairV1Op? || tx.op.PairV2Op?) && tx.hash !in d.infos
    ensures ExecuteTx(d, tx, height) == PairTx(Recorded(d, tx, height), tx.hash, tx.holder, tx.op.orders, height)
  {}

  lemma Itself(d: Database, tx: Tx, height: nat)
    requires !tx.op.StakeOp? && !tx.op.UnstakeOp?
    ensures OnRecord(Recorded(d, tx, height), tx.hash, height)
  {}

  lemma SameRecord(d: Database, f: Database, protocol: Protocol, holder: Signer, hash: string, height: nat)
    requires f.infos == d.infos
    ensures FirstToday(f, protocol, holder, height) <==> FirstToday(d, protocol, holder, height)
    ensures OnRecord(f, hash, height) <==> OnRecord(d, hash, height)
  {}
}
