/** The order in which revert rows name tokens: never before the token was created, over every run and every fork. So a
    row that a fork keeps never names a token that the fork deletes. */
module Chronicles {
  import opened Names
  import opened Logs
  import opened Ledger
  import opened Db
  import opened Execute
  import opened Rollback
  import opened Dispatching
  import opened Effects
  import opened ForkLaws
  import opened Reorg

  /** No posting is older than the creation of its token. */
  ghost predicate InOrder(log: seq<Entry<Posting>>, pools: seq<Entry<PoolId>>, curves: seq<Entry<CurveRevert>>) {
    && (forall e <- log, p <- pools :: e.row.tick == LpTick(p.row) ==> p.height <= e.height)
    && (forall e <- log, c <- curves :: c.row.Deployed? && e.row.tick == Meme(c.row.id) ==> c.height <= e.height)
  }

  ghost predicate Ordered(d: Database) {
    InOrder(d.drc20.log, d.poolLog, d.curveLog) && InOrder(d.meme20.log, d.poolLog, d.curveLog)
  }

  /** Every posting names a token that exists. */
  ghost predicate TicksLogged(d: Database) {
    && (forall e <- d.drc20.log :: e.row.tick in d.drc20.tokens)
    && (forall e <- d.meme20.log :: e.row.tick in d.meme20.tokens)
  }

  ghost predicate Chronicle(d: Database) {
    Ordered(d) && TicksLogged(d)
  }

  lemma PostInOrder(log: seq<Entry<Posting>>, pools: seq<Entry<PoolId>>, curves: seq<Entry<CurveRevert>>,
                    e: Entry<Posting>)
    requires InOrder(log, pools, curves) && AllUpto(pools, e.height) && AllUpto(curves, e.height)
    ensures InOrder(log + [e], pools, curves)
  {}

  lemma PostChronicle(d: Database, ts: Tokens, p: Posting, height: nat)
    requires Chronicle(d) && WrittenBy(d, height) && ts.Keys == BookOf(d, p.tick).tokens.Keys && p.tick in ts
    ensures Chronicle(Post(d, ts, p, height))
  {
    hide InOrder, Typed, AllUpto;
    PostInOrder(BookOf(d, p.tick).log, d.poolLog, d.curveLog, Entry(p, height));
    if p.tick.Meme? {
      assert Post(d, ts, p, height).drc20 == d.drc20;
    } else {
      assert Post(d, ts, p, height).meme20 == d.meme20;
    }
  }

  lemma LedgerChronicle(d: Database, s: Step, height: nat)
    requires Chronicle(d) && WrittenBy(d, height) && Apply(d, s, height).Ok? && Ledgerly(s)
    ensures Chronicle(Apply(d, s, height).value)
  {
    hide Transfer, Mint, Burn, Post, Chronicle, WrittenBy;
    MoveNeeds(d, s, height);
    LedgerKeys(d, s, height);
    match s
    case Move(tick, from, to, amt) =>
      PostChronicle(d, Transfer(BookOf(d, tick).tokens, tick, from, to, amt).value, Posting(from, to, tick, amt), height);
    case MintTo(tick, to, units) =>
      PostChronicle(d, Mint(BookOf(d, tick).tokens, tick, to, units).value, Posting(Nobody, to, tick, units), height);
    case BurnFrom(tick, from, units) =>
      PostChronicle(d, Burn(BookOf(d, tick).tokens, tick, from, units).value, Posting(from, Nobody, tick, units), height);
  }

  lemma LedgerKeys(d: Database, s: Step, height: nat)
    requires Apply(d, s, height).Ok? && Ledgerly(s)
    ensures s.tick in BookOf(d, s.tick).tokens
    ensures s.Move? ==> Transfer(BookOf(d, s.tick).tokens, s.tick, s.from, s.to, s.amt).value.Keys == BookOf(d, s.tick).tokens.Keys
    ensures s.MintTo? ==> Mint(BookOf(d, s.tick).tokens, s.tick, s.to, s.units).value.Keys == BookOf(d, s.tick).tokens.Keys
    ensures s.BurnFrom? ==> Burn(BookOf(d, s.tick).tokens, s.tick, s.from, s.units).value.Keys == BookOf(d, s.tick).tokens.Keys
  {}

  /** A new token: no posting names it yet. */
  lemma NewTick(d: Database, tick: Tick, t: Token)
    requires TicksLogged(d) && Typed(d.drc20.tokens.Keys, d.meme20.tokens.Keys) && tick !in BookOf(d, tick).tokens
    ensures forall e <- d.drc20.log :: e.row.tick != tick
    ensures forall e <- d.meme20.log :: e.row.tick != tick
    ensures TicksLogged(AddToken(d, tick, t))
    ensures AddToken(d, tick, t).drc20.log == d.drc20.log && AddToken(d, tick, t).meme20.log == d.meme20.log
    ensures AddToken(d, tick, t).poolLog == d.poolLog && AddToken(d, tick, t).curveLog == d.curveLog
  {}

  lemma PoolInOrder(log: seq<Entry<Posting>>, pools: seq<Entry<PoolId>>, curves: seq<Entry<CurveRevert>>,
                    p: Entry<PoolId>)
    requires InOrder(log, pools, curves) && forall e <- log :: e.row.tick != LpTick(p.row)
    ensures InOrder(log, pools + [p], curves)
  {}

  lemma CurveInOrder(log: seq<Entry<Posting>>, pools: seq<Entry<PoolId>>, curves: seq<Entry<CurveRevert>>,
                     c: Entry<CurveRevert>)
    requires InOrder(log, pools, curves) && (c.row.Deployed? ==> forall e <- log :: e.row.tick != Meme(c.row.id))
    ensures InOrder(log, pools, curves + [c])
  {}

  lemma RowChronicle(d: Database, s: Step, height: nat)
    requires Chronicle(d) && WrittenBy(d, height) && Apply(d, s, height).Ok? && !Ledgerly(s)
    ensures Chronicle(Apply(d, s, height).value)
  {
    hide CurveToken, AddToken, Typed, Refreshed, InOrder, AllUpto;
    match s
    case DeployTick(tick, max, lim) => NewTick(d, tick, Token(0, max, lim, multiset{}));
    case OpenPool(pool, _, _) =>
      NewTick(d, LpTick(pool), Token(0, MAX_NUMBER, 0, multiset{}));
      PoolInOrder(d.drc20.log, d.poolLog, d.curveLog, Entry(pool, height));
      PoolInOrder(d.meme20.log, d.poolLog, d.curveLog, Entry(pool, height));
    case OpenCurve(id, creator, reserve) =>
      NewTick(d, Meme(id), CurveToken(id, creator, reserve));
      CurveInOrder(d.drc20.log, d.poolLog, d.curveLog, Entry(Deployed(id), height));
      CurveInOrder(d.meme20.log, d.poolLog, d.curveLog, Entry(Deployed(id), height));
    case SetCurve(id, _, _) =>
      var e := Entry(Traded(id, d.curves[id].amt0, d.curves[id].amt1), height);
      CurveInOrder(d.drc20.log, d.poolLog, d.curveLog, e);
      CurveInOrder(d.meme20.log, d.poolLog, d.curveLog, e);
    case _ =>
  }

  lemma {:induction false} RunChronicle(d: Database, script: seq<Step>, height: nat)
    requires Chronicle(d) && WrittenBy(d, height) && Run(d, script, height).Ok?
    ensures Chronicle(Run(d, script, height).value)
    decreases |script|
  {
    hide Apply, Chronicle, WrittenBy;
    if script != [] {
      var s := script[0];
      if Ledgerly(s) {
        LedgerChronicle(d, s, height);
        LedgerWritten(d, s, height);
      } else {
        RowChronicle(d, s, height);
        RowWritten(d, s, height);
      }
      RunChronicle(Apply(d, s, height).value, script[1..], height);
    }
  }

  lemma {:induction false} BlockChronicle(d: Database, txs: seq<Tx>, height: nat)
    requires Chronicle(d) && WrittenBy(d, height)
    ensures Chronicle(ExecuteAll(d, txs, height))
    decreases |txs|
  {
    hide Dispatch, InOrder;
    if txs != [] {
      var r := Recorded(d, txs[0], height);
      if txs[0].hash !in d.infos {
        var script := DispatchIsRun(r, txs[0], height);
        RunChronicle(r, script, height);
        RunWritten(r, script, height);
      }
      BlockChronicle(ExecuteTx(d, txs[0], height), txs[1..], height);
    }
  }

  lemma CutInOrder(log: seq<Entry<Posting>>, pools: seq<Entry<PoolId>>, curves: seq<Entry<CurveRevert>>, h: nat)
    requires InOrder(log, pools, curves)
    ensures InOrder(Upto(log, h), Upto(pools, h), Upto(curves, h))
  {
    CutLog(log, h);
    CutLog(pools, h);
    CutLog(curves, h);
  }

  /** A fork keeps the order, and leaves nothing written above its height, from any state. */
  lemma ForkOrdered(d: Database, h: nat)
    requires Ordered(d) && Fork(d, h).Ok? && Typed(d.drc20.tokens.Keys, d.meme20.tokens.Keys)
    ensures Ordered(Fork(d, h).value) && WrittenBy(Fork(d, h).value, h)
  {
    hide Rewind, Above, Upto, RewindCurves, RewindStakes, RefreshAll, InOrder, Typed;
    CutInOrder(d.drc20.log, d.poolLog, d.curveLog, h);
    CutInOrder(d.meme20.log, d.poolLog, d.curveLog, h);
    ForkTyped(d, h);
    CutLog(d.drc20.log, h);
    CutLog(d.meme20.log, h);
    CutLog(d.poolLog, h);
    CutLog(d.curveLog, h);
    CutLog(d.stakeLog, h);
  }

  /** No revert row up to the height names a token that was created above it. */
  ghost predicate EarlyRowsKept(d: Database, h: nat) {
    var gone := LpTicks(Opened(Above(d.poolLog, h))) + CurveTicks(Above(d.curveLog, h));
    && (forall e <- Upto(d.drc20.log, h) :: e.row.tick !in gone)
    && (forall e <- Upto(d.meme20.log, h) :: e.row.tick !in gone)
  }

  lemma EarlyRows(log: seq<Entry<Posting>>, pools: seq<Entry<PoolId>>, curves: seq<Entry<CurveRevert>>, h: nat)
    requires InOrder(log, pools, curves)
    ensures forall e <- Upto(log, h) :: e.row.tick !in LpTicks(Opened(Above(pools, h))) + CurveTicks(Above(curves, h))
  {
    CutLog(log, h);
    CutLog(pools, h);
    CutLog(curves, h);
  }

  /** What a fork keeps of the revert logs never names what it deletes. */
  lemma OrderedKeepsEarlyRows(d: Database, h: nat)
    requires Ordered(d)
    ensures EarlyRowsKept(d, h)
  {
    EarlyRows(d.drc20.log, d.poolLog, d.curveLog, h);
    EarlyRows(d.meme20.log, d.poolLog, d.curveLog, h);
  }
}
