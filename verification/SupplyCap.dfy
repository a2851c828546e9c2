/** A user-deployed drc-20 tick never has more issued than its maximum, over every block and every fork. */
module SupplyCap {
  import opened Names
  import opened Logs
  import opened Ledger
  import opened Db
  import opened Swap
  import opened Pump
  import opened Execute
  import opened Dispatching
  import opened Effects

  /** What users can deploy and mint; WDOGE's symbol is longer. */
  predicate UserTick(t: Tick) {
    t.Drc? && |t.name| <= 8
  }

  ghost predicate CapRow(ts: Tokens, t: Tick) {
    t in ts && UserTick(t) ==> ts[t].supply <= ts[t].max
  }

  /** No user tick over its maximum, and no burn of one in the log: a fork will not issue any back. */
  ghost predicate Capped(d: Database) {
    && (forall t <- d.drc20.tokens :: CapRow(d.drc20.tokens, t))
    && (forall e <- d.drc20.log :: UserTick(e.row.tick) ==> e.row.to != Nobody)
  }

  /** The write does not change the supply of a user tick upwards, nor burn any. */
  predicate CapSpares(s: Step) {
    match s
    case MintTo(tick, _, _) => !UserTick(tick)
    case BurnFrom(tick, _, _) => !UserTick(tick)
    case DeployTick(_, _, _) => true
    case _ => true
  }

  lemma PostCaps(d: Database, ts: Tokens, p: Posting, height: nat)
    requires Capped(d) && (!p.tick.Meme? ==> forall t <- ts :: CapRow(ts, t)) && (UserTick(p.tick) ==> p.to != Nobody)
    ensures Capped(Post(d, ts, p, height))
  {}

  lemma TransferCaps(ts: Tokens, tick: Tick, from: Address, to: Address, amt: int)
    requires Transfer(ts, tick, from, to, amt).Ok? && forall t <- ts :: CapRow(ts, t)
    ensures forall t <- Transfer(ts, tick, from, to, amt).value :: CapRow(Transfer(ts, tick, from, to, amt).value, t)
  {}

  lemma MintCaps(ts: Tokens, tick: Tick, to: Address, units: nat)
    requires Mint(ts, tick, to, units).Ok? && forall t <- ts :: CapRow(ts, t)
    requires UserTick(tick) ==> ts[tick].supply + units <= ts[tick].max
    ensures forall t <- Mint(ts, tick, to, units).value :: CapRow(Mint(ts, tick, to, units).value, t)
  {}

  lemma BurnCaps(ts: Tokens, tick: Tick, from: Address, units: nat)
    requires Burn(ts, tick, from, units).Ok? && forall t <- ts :: CapRow(ts, t)
    ensures forall t <- Burn(ts, tick, from, units).value :: CapRow(Burn(ts, tick, from, units).value, t)
  {}

  /** A write keeps the caps; a mint if it checks first, a burn if it is of another kind of tick. */
  lemma ApplyCaps(d: Database, s: Step, height: nat)
    requires Capped(d) && Apply(d, s, height).Ok?
    requires CapSpares(s) || (s.MintTo? && s.tick in d.drc20.tokens
                               && d.drc20.tokens[s.tick].supply + s.units <= d.drc20.tokens[s.tick].max)
    ensures Capped(Apply(d, s, height).value)
  {
    hide Transfer, Mint, Burn, Post, CurveToken, Refreshed;
    MoveNeeds(d, s, height);
    match s
    case Move(tick, from, to, amt) =>
      if !tick.Meme? { TransferCaps(d.drc20.tokens, tick, from, to, amt); }
      PostCaps(d, Transfer(BookOf(d, tick).tokens, tick, from, to, amt).value, Posting(from, to, tick, amt), height);
    case MintTo(tick, to, units) =>
      if !tick.Meme? { MintCaps(d.drc20.tokens, tick, to, units); }
      PostCaps(d, Mint(BookOf(d, tick).tokens, tick, to, units).value, Posting(Nobody, to, tick, units), height);
    case BurnFrom(tick, from, units) =>
      if !tick.Meme? { BurnCaps(d.drc20.tokens, tick, from, units); }
      PostCaps(d, Burn(BookOf(d, tick).tokens, tick, from, units).value, Posting(from, Nobody, tick, units), height);
    case _ =>
      RowCaps(d, s, height);
  }

  lemma AddTokenCaps(d: Database, tick: Tick, t: Token)
    requires Capped(d) && (UserTick(tick) ==> t.supply <= t.max)
    ensures Capped(AddToken(d, tick, t))
  {}

  lemma RowCaps(d: Database, s: Step, height: nat)
    requires Capped(d) && Apply(d, s, height).Ok? && !Ledgerly(s)
    ensures Capped(Apply(d, s, height).value)
  {
    hide CurveToken, Refreshed, AddToken, CapRow;
    match s
    case DeployTick(tick, max, lim) => AddTokenCaps(d, tick, Token(0, max, lim, multiset{}));
    case OpenPool(pool, _, _) => AddTokenCaps(d, LpTick(pool), Token(0, MAX_NUMBER, 0, multiset{}));
    case OpenCurve(id, creator, reserve) => AddTokenCaps(d, Meme(id), CurveToken(id, creator, reserve));
    case _ =>
  }

  lemma {:induction false} RunCaps(d: Database, script: seq<Step>, height: nat)
    requires Capped(d) && Run(d, script, height).Ok? && forall s <- script :: CapSpares(s)
    ensures Capped(Run(d, script, height).value)
    decreases |script|
  {
    hide Apply, Capped, CapSpares;
    if script != [] {
      ApplyCaps(d, script[0], height);
      RunCaps(Apply(d, script[0], height).value, script[1..], height);
    }
  }

  lemma OthersCap(op: Op, script: seq<Step>)
    requires AllPermitted(op, script) && !op.MintOp?
    ensures forall s <- script :: CapSpares(s)
  {}

  lemma MintCap(d: Database, holder: Signer, symbol: string, amt: int, repeat_: int, height: nat)
    requires Capped(d) && MintScript(d, holder, symbol, amt, repeat_).Ok?
    requires Run(d, MintScript(d, holder, symbol, amt, repeat_).value, height).Ok?
    ensures Capped(Run(d, MintScript(d, holder, symbol, amt, repeat_).value, height).value)
  {
    hide Apply, Capped;
    var script := MintScript(d, holder, symbol, amt, repeat_).value;
    assert Run(d, script, height) == Apply(d, script[0], height);
    ApplyCaps(d, script[0], height);
  }

  lemma ExecuteCap(d: Database, tx: Tx, height: nat)
    requires Capped(d)
    ensures Capped(ExecuteTx(d, tx, height))
  {
    hide PairTx, PumpTx, Run, MintScript;
    if tx.hash !in d.infos {
      var r := Recorded(d, tx, height);
      if tx.op.MintOp? {
        var script := MintScript(r, tx.holder, tx.op.symbol, tx.op.amt, tx.op.repeat_);
        if script.Ok? && Run(r, script.value, height).Ok? {
          MintCap(r, tx.holder, tx.op.symbol, tx.op.amt, tx.op.repeat_, height);
        }
      } else {
        var script := DispatchIsRun(r, tx, height);
        OthersCap(tx.op, script);
        RunCaps(r, script, height);
      }
    }
  }

  lemma {:induction false} BlockCaps(d: Database, txs: seq<Tx>, height: nat)
    requires Capped(d)
    ensures Capped(ExecuteAll(d, txs, height))
    decreases |txs|
  {
    hide ExecuteTx, Capped;
    if txs != [] {
      ExecuteCap(d, txs[0], height);
      BlockCaps(ExecuteTx(d, txs[0], height), txs[1..], height);
    }
  }

  lemma {:induction false} RewindCaps(ts: Tokens, log: seq<Entry<Posting>>)
    requires Rewind(ts, log).Ok? && forall t <- ts :: CapRow(ts, t)
    requires forall e <- log :: UserTick(e.row.tick) ==> e.row.to != Nobody
    ensures forall t <- Rewind(ts, log).value :: CapRow(Rewind(ts, log).value, t)
    decreases |log|
  {
    hide CapRow;
    if log != [] {
      var p := log[|log| - 1].row;
      UndoCaps(ts, p);
      RewindCaps(Undo(ts, p).value, log[..|log| - 1]);
    }
  }

  lemma UndoCaps(ts: Tokens, p: Posting)
    requires Undo(ts, p).Ok? && (forall t <- ts :: CapRow(ts, t)) && (UserTick(p.tick) ==> p.to != Nobody)
    ensures forall t <- Undo(ts, p).value :: CapRow(Undo(ts, p).value, t)
  {
    hide Transfer, Mint, Burn;
    if p.to != Nobody && p.from == Nobody {
      BurnCaps(ts, p.tick, p.to, p.amt);
    } else if p.from != Nobody && p.to == Nobody {
      MintCaps(ts, p.tick, p.from, p.amt);
    } else {
      TransferCaps(ts, p.tick, p.to, p.from, p.amt);
    }
  }

  /** A fork, to any height and from any capped state, keeps every cap. */
  lemma ForkCaps(d: Database, h: nat)
    requires Capped(d) && Fork(d, h).Ok?
    ensures Capped(Fork(d, h).value)
  {
    hide Rewind, Above, Upto, RewindCurves, RewindStakes, RefreshAll;
    CutLog(d.drc20.log, h);
    RewindCaps(d.drc20.tokens, Above(d.drc20.log, h));
  }
}
