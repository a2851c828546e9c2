/** What a trader can get out of a pool by swapping on it: nothing for nothing when the cache is the ledger, and what it
    takes when a direct payment has left the cache behind. */
module Traders {
  import opened Names
  import opened Db
  import opened Quotes
  import opened Swap
  import opened Execute
  import opened Effects
  import opened PoolSafety
  import opened OrderSafety
  import opened RunSafety

  /** Swaps on one pool, by one holder. */
  predicate SwapsOn(os: seq<PairOrder>, id: PoolId) {
    forall o <- os :: o.order.Exec? && o.order.pool == id
  }

  predicate Swapping(tx: Tx, holder: Signer, id: PoolId) {
    tx.holder == holder && (tx.op.PairV1Op? || tx.op.PairV2Op?) && SwapsOn(tx.op.orders, id)
  }

  /** Blocks that hold nothing else. */
  ghost predicate AllSwapping(stages: seq<Stage>, holder: Signer, id: PoolId) {
    forall s <- stages, tx <- s.txs :: Swapping(tx, holder, id)
  }

  /** What an address has of a token, against what is issued of it: a deposit of native coins raises both, a withdrawal
      lowers both, so a change counts the coins paid in and out along with the WDOGE. */
  function Worth(d: Database, t: Tick, a: Address): int {
    Bal(d, t, a) - Issued(d, t)
  }

  function Side(d: Database, id: PoolId, zero: bool): Tick
    requires id in d.pools
  {
    if zero then d.pools[id].tick0 else d.pools[id].tick1
  }

  /** The product of what the ledger has at the reserves address. */
  function Product(d: Database, id: PoolId): nat
    requires id in d.pools
  {
    Bal(d, d.pools[id].tick0, Reserves(id)) * Bal(d, d.pools[id].tick1, Reserves(id))
  }

  /** Whatever the holder has more of is what the pool has less of; nothing else moved; the liquidity is the same. */
  ghost predicate Zero(d: Database, d': Database, holder: Signer, id: PoolId)
    requires id in d.pools
  {
    && id in d'.pools
    && d'.pools[id].tick0 == d.pools[id].tick0 && d'.pools[id].tick1 == d.pools[id].tick1
    && Issued(d', LpTick(id)) == Issued(d, LpTick(id))
    && forall t :: Exchanged(d, d', holder, id, t)
  }

  ghost predicate Exchanged(d: Database, d': Database, holder: Signer, id: PoolId, t: Tick)
    requires id in d.pools
  {
    && Worth(d', t, holder) + Bal(d', t, Reserves(id)) == Worth(d, t, holder) + Bal(d, t, Reserves(id))
    && (t != d.pools[id].tick0 && t != d.pools[id].tick1 ==> Bal(d', t, Reserves(id)) == Bal(d, t, Reserves(id)))
  }

  lemma ZeroSelf(d: Database, holder: Signer, id: PoolId)
    requires id in d.pools
    ensures Zero(d, d, holder, id)
  {}

  lemma ZeroTrans(a: Database, b: Database, c: Database, holder: Signer, id: PoolId)
    requires id in a.pools && Zero(a, b, holder, id) && Zero(b, c, holder, id)
    ensures Zero(a, c, holder, id)
  {
    hide Worth, Bal;
    forall t
      ensures Exchanged(a, c, holder, id, t)
    {
      assert Exchanged(a, b, holder, id, t) && Exchanged(b, c, holder, id, t);
    }
  }

  // ---------------------------------------------------------------------------------------------------------------
  // Writes between the holder and the pool
  // ---------------------------------------------------------------------------------------------------------------

  /** The write moves one of the two tokens between the holder and the pool, turns native coins into WDOGE or back, or
      concerns no balance. */
  predicate Between(s: Step, holder: Signer, id: PoolId, tick0: Tick, tick1: Tick) {
    match s
    case Move(tick, from, to, _) =>
      && (tick == tick0 || tick == tick1)
      && ((from == holder && to == Reserves(id)) || (from == Reserves(id) && to == holder))
    case MintTo(tick, to, _) => tick == WDOGE && to == holder
    case BurnFrom(tick, from, _) => tick == WDOGE && from == holder
    case Refresh(_) => true
    case MarkTraded(_) => true
    case _ => false
  }

  lemma BetweenStep(d: Database, s: Step, height: nat, holder: Signer, id: PoolId)
    requires id in d.pools && Apply(d, s, height).Ok?
    requires Between(s, holder, id, d.pools[id].tick0, d.pools[id].tick1)
    requires d.pools[id].tick0 != LpTick(id) && d.pools[id].tick1 != LpTick(id)
    ensures Zero(d, Apply(d, s, height).value, holder, id)
  {
    hide Apply;
    var d' := Apply(d, s, height).value;
    StepPools(d, s, height, id);
    StepEffect(d, s, height, LpTick(id), Nobody);
    forall t
      ensures Exchanged(d, d', holder, id, t)
    {
      StepEffect(d, s, height, t, holder);
      StepEffect(d, s, height, t, Reserves(id));
    }
  }

  lemma {:induction false} BetweenRun(d: Database, script: seq<Step>, height: nat, holder: Signer, id: PoolId)
    requires id in d.pools && Run(d, script, height).Ok?
    requires forall s <- script :: Between(s, holder, id, d.pools[id].tick0, d.pools[id].tick1)
    requires d.pools[id].tick0 != LpTick(id) && d.pools[id].tick1 != LpTick(id)
    ensures Zero(d, Run(d, script, height).value, holder, id)
    decreases |script|
  {
    hide Apply, Between, Exchanged;
    if script == [] {
      ZeroSelf(d, holder, id);
    } else {
      var mid := Apply(d, script[0], height).value;
      BetweenStep(d, script[0], height, holder, id);
      BetweenRun(mid, script[1..], height, holder, id);
      ZeroTrans(d, mid, Run(d, script, height).value, holder, id);
    }
  }

  lemma ExecBetween(d: Database, hash: string, holder: Signer, id: PoolId, input: Tick, amt: int, minOut: int, height: nat)
    requires ExecPlan(d, hash, holder, id, input, amt, minOut, height).Ok?
    ensures id in d.pools
    ensures forall s <- ExecPlan(d, hash, holder, id, input, amt, minOut, height).value.script ::
              Between(s, holder, id, d.pools[id].tick0, d.pools[id].tick1)
  {
    hide Out, AfterFee, TradedAlready;
  }

  // ---------------------------------------------------------------------------------------------------------------
  // Swaps
  // ---------------------------------------------------------------------------------------------------------------

  /** What a run of the holder's swaps promises: a zero-sum exchange with the pool at no cost to its liquidity. */
  ghost predicate Fair(d: Database, d': Database, holder: Signer, id: PoolId)
    requires id in d.pools
  {
    && Safe(d')
    && Zero(d, d', holder, id)
    && Kept(d, d', id)
    && (PoolAgrees(d, id) ==> PoolAgrees(d', id))
  }

  lemma FairSelf(d: Database, holder: Signer, id: PoolId)
    requires id in d.pools && Safe(d)
    ensures Fair(d, d, holder, id)
  {
    hide Safe, PoolAgrees;
    ZeroSelf(d, holder, id);
  }

  lemma FairTrans(a: Database, b: Database, c: Database, holder: Signer, id: PoolId)
    requires id in a.pools && Fair(a, b, holder, id) && Fair(b, c, holder, id)
    ensures Fair(a, c, holder, id)
  {
    hide Safe, PoolAgrees, Zero, Kept;
    PoolOfSafe(b, id);
    KeptTrans(a, b, c, id);
    ZeroTrans(a, b, c, holder, id);
  }

  lemma TicksApart(d: Database, id: PoolId)
    requires Safe(d) && id in d.pools
    ensures d.pools[id].tick0 != LpTick(id) && d.pools[id].tick1 != LpTick(id)
    ensures d.pools[id].tick0 != d.pools[id].tick1
  {
    assert PoolInv(d, id);
  }

  lemma UndilutedKept(d: Database, d': Database, id: PoolId, tidy: bool)
    requires Keeps(d, d', tidy) && id in d.pools
    ensures Safe(d') && Kept(d, d', id)
  {}

  /** One swap that goes through; right after it the cache is the ledger, whatever it was before. */
  lemma SwapFair(d: Database, hash: string, holder: Signer, o: PairOrder, height: nat, id: PoolId)
    requires Safe(d) && o.order.Exec? && o.order.pool == id && RunOrder(d, hash, holder, o, height).Ok?
    ensures id in d.pools && Fair(d, RunOrder(d, hash, holder, o, height).value.0, holder, id)
    ensures PoolAgrees(RunOrder(d, hash, holder, o, height).value.0, id)
  {
    hide Run, Safe, Keeps, PoolAgrees, ExecPlan, Zero, Between;
    ExecBetween(d, hash, holder, id, o.order.input, o.order.amt, o.order.minOut, height);
    OrderSafe(d, hash, holder, o, height);
    TicksApart(d, id);
    BetweenRun(d, OrderPlan(d, hash, holder, o.order, height).value.script, height, holder, id);
    UndilutedKept(d, RunOrder(d, hash, holder, o, height).value.0, id, true);
  }

  lemma {:induction false} SwapsFair(d: Database, hash: string, holder: Signer, os: seq<PairOrder>, height: nat, id: PoolId)
    requires Safe(d) && id in d.pools && SwapsOn(os, id) && RunOrders(d, hash, holder, os, height).Ok?
    ensures Fair(d, RunOrders(d, hash, holder, os, height).value.0, holder, id)
    decreases |os|
  {
    hide RunOrder, Safe, Zero, Kept, PoolAgrees;
    if os == [] {
      FairSelf(d, holder, id);
    } else {
      var mid := RunOrder(d, hash, holder, os[0], height).value.0;
      assert os[0] in os;
      SwapFair(d, hash, holder, os[0], height, id);
      InZero(d, mid, holder, id);
      SwapsFair(mid, hash, holder, os[1..], height, id);
      FairTrans(d, mid, RunOrders(d, hash, holder, os, height).value.0, holder, id);
    }
  }

  lemma InZero(d: Database, d': Database, holder: Signer, id: PoolId)
    requires id in d.pools && Zero(d, d', holder, id)
    ensures id in d'.pools
  {}

  /** A deposit or a withdrawal around the swaps. */
  lemma PayFair(d: Database, holder: Signer, s: Step, height: nat, id: PoolId)
    requires Safe(d) && id in d.pools && Run(d, [s], height).Ok?
    requires (s.MintTo? && s.tick == WDOGE && s.to == holder) || (s.BurnFrom? && s.tick == WDOGE && s.from == holder)
    ensures Fair(d, Run(d, [s], height).value, holder, id)
  {
    hide Run, PoolAgrees, Zero, Safe, PoolInv;
    ElsewhereKeeps(d, [s], height, true);
    UndilutedKept(d, Run(d, [s], height).value, id, true);
    TicksApart(d, id);
    BetweenRun(d, [s], height, holder, id);
    assert Ignores(s, id);
    RunSpares(d, [s], height, id);
  }

  lemma PaysFair(d: Database, holder: Signer, amt: int, height: nat, id: PoolId)
    requires Safe(d) && id in d.pools
    ensures PayIn(d, holder, amt, height).Ok? ==> Fair(d, PayIn(d, holder, amt, height).value, holder, id)
    ensures amt >= 0 && PayOut(d, holder, amt, height).Ok? ==> Fair(d, PayOut(d, holder, amt, height).value, holder, id)
  {
    hide Run, Safe, Fair;
    if amt <= 0 {
      FairSelf(d, holder, id);
    } else {
      if Run(d, [MintTo(WDOGE, holder, amt)], height).Ok? {
        PayFair(d, holder, MintTo(WDOGE, holder, amt), height, id);
      }
      if Run(d, [BurnFrom(WDOGE, holder, amt)], height).Ok? {
        PayFair(d, holder, BurnFrom(WDOGE, holder, amt), height, id);
      }
    }
  }

  lemma FairIn(d: Database, d': Database, holder: Signer, id: PoolId)
    requires id in d.pools && Fair(d, d', holder, id)
    ensures id in d'.pools && Safe(d')
  {}

  /** A whole transaction, deposit, withdrawal and rollback included. */
  lemma PairFair(d: Database, hash: string, holder: Signer, os: seq<PairOrder>, height: nat, id: PoolId)
    requires Safe(d) && id in d.pools && SwapsOn(os, id)
    ensures Fair(d, PairTx(d, hash, holder, os, height), holder, id)
  {
    hide PayIn, PayOut, RunOrders, Deposits, Safe, Fair, SwapsOn;
    FairSelf(d, holder, id);
    if Deposits(d.pools, os).Ok? && PayIn(d, holder, Deposits(d.pools, os).value, height).Ok? {
      var funded := PayIn(d, holder, Deposits(d.pools, os).value, height).value;
      PaysFair(d, holder, Deposits(d.pools, os).value, height, id);
      FairIn(d, funded, holder, id);
      if OrdersAndPayOut(funded, hash, holder, os, height).Ok? {
        var done := RunOrders(funded, hash, holder, os, height).value;
        SwapsFair(funded, hash, holder, os, height, id);
        FairIn(funded, done.0, holder, id);
        PaysFair(done.0, holder, done.1, height, id);
        FairTrans(d, funded, done.0, holder, id);
        FairTrans(d, done.0, PayOut(done.0, holder, done.1, height).value, holder, id);
      }
    }
  }

  lemma RecordedFair(d: Database, tx: Tx, height: nat, id: PoolId)
    requires Safe(d) && id in d.pools
    ensures Fair(d, Recorded(d, tx, height), tx.holder, id)
  {
    hide PoolInv, PoolAgrees, Safe;
    RecordedKeeps(d, tx, height, false);
    UndilutedKept(d, Recorded(d, tx, height), id, false);
    SamePool(d, Recorded(d, tx, height), id);
  }

  lemma ExecuteFair(d: Database, tx: Tx, height: nat, holder: Signer, id: PoolId)
    requires Safe(d) && id in d.pools && Swapping(tx, holder, id)
    ensures Fair(d, ExecuteTx(d, tx, height), holder, id)
  {
    hide PairTx, Safe, Fair;
    if tx.hash in d.infos {
      FairSelf(d, holder, id);
    } else {
      var r := Recorded(d, tx, height);
      RecordedFair(d, tx, height, id);
      FairIn(d, r, holder, id);
      PairFair(r, tx.hash, holder, tx.op.orders, height, id);
      FairTrans(d, r, ExecuteTx(d, tx, height), holder, id);
    }
  }

  lemma {:induction false} BlockFair(d: Database, txs: seq<Tx>, height: nat, holder: Signer, id: PoolId)
    requires Safe(d) && id in d.pools && forall tx <- txs :: Swapping(tx, holder, id)
    ensures Fair(d, ExecuteAll(d, txs, height), holder, id)
    decreases |txs|
  {
    hide ExecuteTx, Safe, Fair, Swapping;
    if txs == [] {
      FairSelf(d, holder, id);
    } else {
      var mid := ExecuteTx(d, txs[0], height);
      ExecuteFair(d, txs[0], height, holder, id);
      FairIn(d, mid, holder, id);
      BlockFair(mid, txs[1..], height, holder, id);
      FairTrans(d, mid, ExecuteAll(d, txs, height), holder, id);
    }
  }

  lemma {:induction false} StagesFair(d: Database, stages: seq<Stage>, holder: Signer, id: PoolId)
    requires Safe(d) && id in d.pools && AllSwapping(stages, holder, id)
    ensures Fair(d, Advance(d, stages), holder, id)
    decreases |stages|
  {
    hide ExecuteAll, Safe, Fair, Swapping;
    if stages == [] {
      FairSelf(d, holder, id);
    } else {
      var s := stages[0];
      var mid := ExecuteAll(d, s.txs, s.height);
      assert s in stages;
      BlockFair(d, s.txs, s.height, holder, id);
      FairIn(d, mid, holder, id);
      StagesFair(mid, stages[1..], holder, id);
      FairTrans(d, mid, Advance(d, stages), holder, id);
    }
  }

  // ---------------------------------------------------------------------------------------------------------------
  // No free lunch
  // ---------------------------------------------------------------------------------------------------------------

  /** More of one token only for less of the other, coins included; and no third token changed hands. */
  ghost predicate PaidFor(d: Database, d': Database, holder: Signer, id: PoolId)
    requires id in d.pools
  {
    var t0, t1 := d.pools[id].tick0, d.pools[id].tick1;
    && (Worth(d', t0, holder) > Worth(d, t0, holder) ==> Worth(d', t1, holder) < Worth(d, t1, holder))
    && (Worth(d', t1, holder) > Worth(d, t1, holder) ==> Worth(d', t0, holder) < Worth(d, t0, holder))
    && forall t | t != t0 && t != t1 :: Worth(d', t, holder) == Worth(d, t, holder)
  }

  /** A zero-sum exchange in which the ledger's product does not fall is paid for. */
  lemma ProductPays(d: Database, d': Database, holder: Signer, id: PoolId)
    requires id in d.pools && Zero(d, d', holder, id) && Product(d, id) <= Product(d', id)
    requires Bal(d, d.pools[id].tick0, Reserves(id)) > 0 && Bal(d, d.pools[id].tick1, Reserves(id)) > 0
    ensures PaidFor(d, d', holder, id)
  {
    hide Bal, Issued;
    var t0, t1 := d.pools[id].tick0, d.pools[id].tick1;
    var a, b := Bal(d, t0, Reserves(id)), Bal(d, t1, Reserves(id));
    var a', b' := Bal(d', t0, Reserves(id)), Bal(d', t1, Reserves(id));
    assert Exchanged(d, d', holder, id, t0) && Exchanged(d, d', holder, id, t1);
    forall t | t != t0 && t != t1
      ensures Worth(d', t, holder) == Worth(d, t, holder)
    {
      assert Exchanged(d, d', holder, id, t);
    }
    if a' < a && b' <= b {
      StrictProduct(a', a, b', b);
    }
    if b' < b && a' <= a {
      StrictProduct(b', b, a', a);
    }
  }

  /** From where the cache is the ledger, swaps never lower the ledger's product. */
  lemma FairProduct(d: Database, d': Database, holder: Signer, id: PoolId)
    requires Safe(d) && id in d.pools && PoolAgrees(d, id) && Fair(d, d', holder, id)
    ensures Product(d, id) <= Product(d', id)
    ensures Bal(d, d.pools[id].tick0, Reserves(id)) > 0 && Bal(d, d.pools[id].tick1, Reserves(id)) > 0
  {
    assert PoolInv(d, id) && PoolInv(d', id);
    hide Safe, NoDilution, Sound;
    SoundPositive(ShapeOf(d.pools[id]));
    assert d.pools[id].total > 0 by { AtLeastMini(d.pools[id]); }
    SameTotal(ShapeOf(d.pools[id]), ShapeOf(d'.pools[id]));
  }

  /** However a trader swaps on a pool whose cache is the ledger, in one transaction or over many blocks, with tokens or
      with native coins, v1 or v2: there is no more of one token in it without less of the other. */
  lemma SwapsPaidFor(d: Database, stages: seq<Stage>, holder: Signer, id: PoolId)
    requires Safe(d) && id in d.pools && PoolAgrees(d, id)
    requires AllSwapping(stages, holder, id)
    ensures PaidFor(d, Advance(d, stages), holder, id)
  {
    hide Advance, Safe, PoolAgrees, Zero, Kept, PaidFor;
    StagesFair(d, stages, holder, id);
    FairProduct(d, Advance(d, stages), holder, id);
    ProductPays(d, Advance(d, stages), holder, id);
  }

  /** The same for the orders of one transaction alone: here what is compared are the holder's balances. */
  lemma OrdersPaidFor(d: Database, hash: string, holder: Signer, os: seq<PairOrder>, height: nat, id: PoolId)
    requires Safe(d) && id in d.pools && PoolAgrees(d, id) && SwapsOn(os, id)
    requires RunOrders(d, hash, holder, os, height).Ok?
    ensures PaidFor(d, RunOrders(d, hash, holder, os, height).value.0, holder, id)
  {
    hide RunOrders, Safe, PoolAgrees, Zero, Kept, PaidFor;
    SwapsFair(d, hash, holder, os, height, id);
    FairProduct(d, RunOrders(d, hash, holder, os, height).value.0, holder, id);
    ProductPays(d, RunOrders(d, hash, holder, os, height).value.0, holder, id);
  }

  // ---------------------------------------------------------------------------------------------------------------
  // A cache left behind
  // ---------------------------------------------------------------------------------------------------------------

  /** The swap buys no more than the ledger's own reserves would give for the whole payment. */
  predicate LedgerPriced(d: Database, o: Order)
    requires o.Exec? && o.pool in d.pools && o.amt >= 1
  {
    var p := d.pools[o.pool];
    var zero := o.input == p.tick0;
    var rin := Bal(d, if zero then p.tick0 else p.tick1, Reserves(o.pool));
    var rout := Bal(d, if zero then p.tick1 else p.tick0, Reserves(o.pool));
    ExecOut(p, zero, o.amt) * (rin + o.amt) <= o.amt * rout
  }

  lemma FirstSwapNeeds(d: Database, hash: string, holder: Signer, o: PairOrder, height: nat)
    requires o.order.Exec? && RunOrder(d, hash, holder, o, height).Ok?
    ensures o.order.pool in d.pools && o.order.amt >= 1
    ensures o.order.input == d.pools[o.order.pool].tick0 || o.order.input == d.pools[o.order.pool].tick1
  {
    hide Run, Out, AfterFee;
  }

  /** What one swap leaves at the reserves address. */
  lemma SwapMoves(d: Database, hash: string, holder: Signer, o: PairOrder, height: nat)
    requires Safe(d) && o.order.Exec? && RunOrder(d, hash, holder, o, height).Ok?
    ensures var id := o.order.pool;
            && id in d.pools && o.order.amt >= 1
            && var p, m := d.pools[id], RunOrder(d, hash, holder, o, height).value.0;
               var zero := o.order.input == p.tick0;
               var tickIn, tickOut := if zero then p.tick0 else p.tick1, if zero then p.tick1 else p.tick0;
               && Bal(m, tickIn, Reserves(id)) == Bal(d, tickIn, Reserves(id)) + o.order.amt
               && Bal(m, tickOut, Reserves(id)) == Bal(d, tickOut, Reserves(id)) - ExecOut(p, zero, o.order.amt)
  {
    hide Run, Safe, ExecOut, Total, TradedAlready;
    FirstSwapNeeds(d, hash, holder, o, height);
    var id, amt := o.order.pool, o.order.amt;
    var p := d.pools[id];
    TicksApart(d, id);
    var zero := o.order.input == p.tick0;
    var tickIn, tickOut := if zero then p.tick0 else p.tick1, if zero then p.tick1 else p.tick0;
    var moves := ExecMoves(holder, id, tickIn, tickOut, amt, ExecOut(p, zero, amt));
    var mark := if id.V2? then [MarkTraded(hash)] else [];
    var script := OrderPlan(d, hash, holder, o.order, height).value.script;
    assert script == moves + ([Refresh(id)] + mark) by { ExecScript(d, hash, holder, o.order, height); }
    ExecDeltas(holder, id, tickIn, tickOut, amt, ExecOut(p, zero, amt));
    forall t
      ensures Total(script, t, Reserves(id)) == Total(moves, t, Reserves(id))
    {
      TotalAppend(moves, [Refresh(id)] + mark, t, Reserves(id));
      NoBalance(id, hash, t);
    }
    RunEffect(d, script, height, tickIn, Reserves(id));
    RunEffect(d, script, height, tickOut, Reserves(id));
  }

  lemma NoBalance(id: PoolId, hash: string, t: Tick)
    ensures Total([Refresh(id)] + (if id.V2? then [MarkTraded(hash)] else []), t, Reserves(id)) == 0
  {
    TotalCons(Refresh(id), if id.V2? then [MarkTraded(hash)] else [], t, Reserves(id));
    TotalCons(MarkTraded(hash), [], t, Reserves(id));
    assert [MarkTraded(hash)] + [] == [MarkTraded(hash)];
  }

  lemma ExecScript(d: Database, hash: string, holder: Signer, o: Order, height: nat)
    requires o.Exec? && OrderPlan(d, hash, holder, o, height).Ok?
    ensures var p := d.pools[o.pool];
            var zero := o.input == p.tick0;
            var mark := if o.pool.V2? then [MarkTraded(hash)] else [];
            OrderPlan(d, hash, holder, o, height).value.script ==
            ExecMoves(holder, o.pool, if zero then p.tick0 else p.tick1, if zero then p.tick1 else p.tick0, o.amt,
                      ExecOut(p, zero, o.amt)) + ([Refresh(o.pool)] + mark)
  {
    hide Out, AfterFee, TradedAlready;
  }

  lemma ProductStep(rin: nat, rout: nat, amt: nat, out: nat)
    requires out <= rout
    ensures rin * rout <= (rin + amt) * (rout - out) <==> out * (rin + amt) <= amt * rout
  {
    assert (rin + amt) * (rout - out) == (rin + amt) * rout - out * (rin + amt);
    assert (rin + amt) * rout == rin * rout + amt * rout;
  }

  /** With a cache that may lag behind the ledger: after a first swap the ledger's product is, at every later point of
      any run of swaps, at least what it was, if and only if that swap was no better than the ledger's price. */
  lemma StaleProductIff(d: Database, hash: string, holder: Signer, o: PairOrder, height: nat)
    requires Safe(d) && o.order.Exec? && RunOrder(d, hash, holder, o, height).Ok?
    ensures var id, m := o.order.pool, RunOrder(d, hash, holder, o, height).value.0;
            && id in d.pools && o.order.amt >= 1 && id in m.pools
            && (LedgerPriced(d, o.order) <==>
                forall stages | AllSwapping(stages, holder, id) ::
                  id in Advance(m, stages).pools && Product(d, id) <= Product(Advance(m, stages), id))
  {
    hide Advance, Safe, PoolAgrees, Kept, RunOrder, ExecOut, Swapping;
    var id := o.order.pool;
    var m := RunOrder(d, hash, holder, o, height).value.0;
    FirstPriced(d, hash, holder, o, height);
    SwapFair(d, hash, holder, o, height, id);
    if LedgerPriced(d, o.order) {
      forall stages | AllSwapping(stages, holder, id)
        ensures id in Advance(m, stages).pools && Product(d, id) <= Product(Advance(m, stages), id)
      {
        StagesFair(m, stages, holder, id);
        FairIn(m, Advance(m, stages), holder, id);
        FairProduct(m, Advance(m, stages), holder, id);
      }
    } else {
      var none: seq<Stage> := [];
      assert Advance(m, none) == m by { AdvanceNothing(m); }
      assert AllSwapping(none, holder, id);
      assert !(Product(d, id) <= Product(Advance(m, none), id));
    }
  }

  lemma AdvanceNothing(d: Database)
    ensures Advance(d, []) == d
  {}

  lemma FirstPriced(d: Database, hash: string, holder: Signer, o: PairOrder, height: nat)
    requires Safe(d) && o.order.Exec? && RunOrder(d, hash, holder, o, height).Ok?
    ensures var id, m := o.order.pool, RunOrder(d, hash, holder, o, height).value.0;
            && id in d.pools && o.order.amt >= 1 && id in m.pools
            && m.pools[id].tick0 == d.pools[id].tick0 && m.pools[id].tick1 == d.pools[id].tick1
            && (LedgerPriced(d, o.order) <==> Product(d, id) <= Product(m, id))
  {
    hide Safe, RunOrder, ExecOut, PoolAgrees, Kept, Exchanged, Bal;
    var id := o.order.pool;
    SwapMoves(d, hash, holder, o, height);
    SwapFair(d, hash, holder, o, height, id);
    var p, m := d.pools[id], RunOrder(d, hash, holder, o, height).value.0;
    var zero := o.order.input == p.tick0;
    var rin := Bal(d, if zero then p.tick0 else p.tick1, Reserves(id));
    var rout := Bal(d, if zero then p.tick1 else p.tick0, Reserves(id));
    ProductStep(rin, rout, o.order.amt, ExecOut(p, zero, o.order.amt));
  }

  /** So whoever ends with more of one token and no less of the other began with a swap that the lagging cache priced
      better than the ledger. */
  lemma StaleSwapsPaidFor(d: Database, hash: string, holder: Signer, o: PairOrder, height: nat, stages: seq<Stage>)
    requires Safe(d) && o.order.Exec? && RunOrder(d, hash, holder, o, height).Ok?
    requires AllSwapping(stages, holder, o.order.pool)
    ensures var id, e := o.order.pool, Advance(RunOrder(d, hash, holder, o, height).value.0, stages);
            id in d.pools && o.order.amt >= 1 && (LedgerPriced(d, o.order) ==> PaidFor(d, e, holder, id))
  {
    hide Advance, Safe, PoolAgrees, Kept, RunOrder, LedgerPriced, Zero, PaidFor;
    var id := o.order.pool;
    var m := RunOrder(d, hash, holder, o, height).value.0;
    FirstPriced(d, hash, holder, o, height);
    SwapFair(d, hash, holder, o, height, id);
    StagesFair(m, stages, holder, id);
    FairTrans(d, m, Advance(m, stages), holder, id);
    if LedgerPriced(d, o.order) {
      FairProduct(m, Advance(m, stages), holder, id);
      FairIn(m, Advance(m, stages), holder, id);
      HeldPositive(d, id);
      ProductPays(d, Advance(m, stages), holder, id);
    }
  }

  lemma HeldPositive(d: Database, id: PoolId)
    requires Safe(d) && id in d.pools
    ensures Bal(d, d.pools[id].tick0, Reserves(id)) > 0 && Bal(d, d.pools[id].tick1, Reserves(id)) > 0
  {
    assert PoolInv(d, id);
    SoundPositive(ShapeOf(d.pools[id]));
  }
}
