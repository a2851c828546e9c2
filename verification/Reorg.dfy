/** Chains of blocks, replay from scratch, and when a fork equals a replay. */
module Reorg {
  import opened Results
  import opened Names
  import opened Logs
  import opened Ledger
  import opened Db
  import opened Execute
  import opened Rollback
  import opened Dispatching
  import opened Effects
  import opened PoolSafety
  import opened OrderSafety
  import opened RunSafety

  /** A block stands for its hash: the hash commits to the parent and to the transactions. `First` is the block before
      the first one indexed; what lies under it is never looked at. */
  datatype Header =
    | First(height: nat, txs: seq<Tx>, salt: nat)
    | Link(prev: Header, txs: seq<Tx>, salt: nat)

  function Height(b: Header): nat {
    match b
    case First(h, _, _) => h
    case Link(p, _, _) => Height(p) + 1
  }

  function FirstOf(b: Header): (f: Header)
    ensures f.First? && Height(f) <= Height(b)
  {
    if b.First? then b else FirstOf(b.prev)
  }

  /** The block of `b`'s chain at height `n`: `GetBlockHash` of a node whose tip is `b`. */
  function Ancestor(b: Header, n: nat): (a: Header)
    requires FirstOf(b).height <= n <= Height(b)
    ensures Height(a) == n && FirstOf(a) == FirstOf(b)
  {
    if n == Height(b) then b else Ancestor(b.prev, n)
  }

  lemma {:induction false} AncestorTwice(b: Header, n: nat, m: nat)
    requires FirstOf(b).height <= m <= n <= Height(b)
    ensures Ancestor(Ancestor(b, n), m) == Ancestor(b, m)
  {
    if n != Height(b) {
      AncestorTwice(b.prev, n, m);
    }
  }

  /** Two chains that agree at a height agree below it. */
  lemma AgreeBelow(a: Header, b: Header, n: nat, m: nat)
    requires FirstOf(a).height == FirstOf(b).height <= m <= n && n <= Height(a) && n <= Height(b)
    requires Ancestor(a, n) == Ancestor(b, n)
    ensures Ancestor(a, m) == Ancestor(b, m)
  {
    AncestorTwice(a, n, m);
    AncestorTwice(b, n, m);
  }

  /** The tables after indexing the chain of `b` from scratch; `rooted` if the first stored block was indexed too. */
  function Replay(base: Database, rooted: bool, b: Header): Database {
    match b
    case First(h, txs, _) => if rooted then ExecuteAll(base, txs, h) else base
    case Link(p, txs, _) => ExecuteAll(Replay(base, rooted, p), txs, Height(b))
  }

  /** The blocks of `b`'s chain above height `c`. */
  function StagesOf(b: Header, c: nat): seq<Stage>
    requires FirstOf(b).height <= c <= Height(b)
  {
    if c == Height(b) then [] else StagesOf(b.prev, c) + [Stage(b.txs, Height(b))]
  }

  /** A chain's state is the state at any of its blocks, advanced by the blocks above it. */
  lemma {:induction false} ReplayAdvances(base: Database, rooted: bool, b: Header, c: nat)
    requires FirstOf(b).height <= c <= Height(b)
    ensures Replay(base, rooted, b) == Advance(Replay(base, rooted, Ancestor(b, c)), StagesOf(b, c))
  {
    hide ExecuteAll;
    if c != Height(b) {
      var s := Replay(base, rooted, Ancestor(b, c));
      ReplayAdvances(base, rooted, b.prev, c);
      AdvanceAppend(s, StagesOf(b.prev, c), [Stage(b.txs, Height(b))]);
      AdvanceOne(Replay(base, rooted, b.prev), Stage(b.txs, Height(b)));
    }
  }

  lemma AdvanceOne(d: Database, s: Stage)
    ensures Advance(d, [s]) == ExecuteAll(d, s.txs, s.height)
  {
    hide ExecuteAll;
    assert [s][1..] == [];
  }

  // ---------------------------------------------------------------------------------------------------------------
  // Heights
  // ---------------------------------------------------------------------------------------------------------------

  lemma AppendedBy<T>(log: seq<Entry<T>>, e: Entry<T>, h: nat)
    requires AllUpto(log, h) && e.height <= h
    ensures AllUpto(log + [e], h)
  {}

  lemma LedgerWritten(d: Database, s: Step, height: nat)
    requires WrittenBy(d, height) && Apply(d, s, height).Ok? && Ledgerly(s)
    ensures WrittenBy(Apply(d, s, height).value, height)
  {
    LedgerlyStep(d, s, height);
    MoveNeeds(d, s, height);
    hide Transfer, Mint, Burn;
  }

  lemma RowWritten(d: Database, s: Step, height: nat)
    requires WrittenBy(d, height) && Apply(d, s, height).Ok? && !Ledgerly(s)
    ensures WrittenBy(Apply(d, s, height).value, height)
  {
    hide CurveToken, AddToken, AllUpto, Typed, Refreshed;
    match s
    case DeployTick(tick, max, lim) => AddTokenWritten(d, tick, Token(0, max, lim, multiset{}), height);
    case OpenPool(pool, _, _) =>
      AddTokenWritten(d, LpTick(pool), Token(0, MAX_NUMBER, 0, multiset{}), height);
      AppendedBy(d.poolLog, Entry(pool, height), height);
    case OpenCurve(id, creator, reserve) =>
      AddTokenWritten(d, Meme(id), CurveToken(id, creator, reserve), height);
      AppendedBy(d.curveLog, Entry(Deployed(id), height), height);
    case SetCurve(id, _, _) =>
      AppendedBy(d.curveLog, Entry(Traded(id, d.curves[id].amt0, d.curves[id].amt1), height), height);
    case OpenStake(id, _, _) => AppendedBy(d.stakeLog, Entry(Staked(id), height), height);
    case CloseStake(id, _) => AppendedBy(d.stakeLog, Entry(Unstaked(id), height), height);
    case _ =>
  }

  lemma AddTokenWritten(d: Database, tick: Tick, t: Token, height: nat)
    requires WrittenBy(d, height)
    ensures WrittenBy(AddToken(d, tick, t), height)
    ensures AddToken(d, tick, t).poolLog == d.poolLog && AddToken(d, tick, t).curveLog == d.curveLog
  {}

  lemma {:induction false} RunWritten(d: Database, script: seq<Step>, height: nat)
    requires WrittenBy(d, height) && Run(d, script, height).Ok?
    ensures WrittenBy(Run(d, script, height).value, height)
    decreases |script|
  {
    hide Apply, WrittenBy;
    if script != [] {
      if Ledgerly(script[0]) {
        LedgerWritten(d, script[0], height);
      } else {
        RowWritten(d, script[0], height);
      }
      RunWritten(Apply(d, script[0], height).value, script[1..], height);
    }
  }

  lemma {:induction false} ExecuteAllWritten(d: Database, txs: seq<Tx>, height: nat)
    requires WrittenBy(d, height)
    ensures WrittenBy(ExecuteAll(d, txs, height), height)
    decreases |txs|
  {
    hide Dispatch;
    if txs != [] {
      var r := Recorded(d, txs[0], height);
      if txs[0].hash !in d.infos {
        var script := DispatchIsRun(r, txs[0], height);
        RunWritten(r, script, height);
      }
      ExecuteAllWritten(ExecuteTx(d, txs[0], height), txs[1..], height);
    }
  }

  lemma WrittenLater(d: Database, h: nat, k: nat)
    requires WrittenBy(d, h) && h <= k
    ensures WrittenBy(d, k)
  {}

  lemma {:induction false} ReplayWritten(base: Database, rooted: bool, b: Header)
    requires WrittenBy(base, FirstOf(b).height)
    ensures WrittenBy(Replay(base, rooted, b), Height(b))
  {
    hide ExecuteAll, WrittenBy;
    match b
    case First(h, txs, _) =>
      ExecuteAllWritten(base, txs, h);
    case Link(p, txs, _) =>
      ReplayWritten(base, rooted, p);
      WrittenLater(Replay(base, rooted, p), Height(p), Height(b));
      ExecuteAllWritten(Replay(base, rooted, p), txs, Height(b));
  }

  // ---------------------------------------------------------------------------------------------------------------
  // Fork equals replay
  // ---------------------------------------------------------------------------------------------------------------

  /** The state after any chain can be rolled back to the state at any of its blocks. */
  lemma {:induction false} ReplayTracks(base: Database, rooted: bool, b: Header, c: nat)
    requires WrittenBy(base, FirstOf(b).height) && FirstOf(b).height <= c <= Height(b)
    ensures Tracks(Replay(base, rooted, Ancestor(b, c)), Replay(base, rooted, b), c)
  {
    hide ExecuteAll, Tracks, WrittenBy;
    if c == Height(b) {
      ReplayWritten(base, rooted, b);
      TracksSelf(Replay(base, rooted, b), c);
    } else {
      ReplayTracks(base, rooted, b.prev, c);
      ExecuteAllTracks(Replay(base, rooted, Ancestor(b, c)), Replay(base, rooted, b.prev), b.txs, Height(b), c);
    }
  }

  /** What a fork cannot undo is absent: no tick deployed since `s`, no consensus transaction recorded since, and no
      cache of `s` that a refresh would change. */
  ghost predicate Restorable(s: Database, d: Database)
    requires |s.poolLog| <= |d.poolLog| && |s.curveLog| <= |d.curveLog|
  {
    Orphans(s, d) == {} && StrayInfos(s, d) == {} && CachesAgree(s)
  }

  /** Reorg equals replay, for every chain and every depth: forking to height `c` never fails, and it gives exactly
      what indexing the chain only up to `c` gives if and only if the state is restorable. */
  lemma ForkReplay(base: Database, rooted: bool, b: Header, c: nat)
    requires WrittenBy(base, FirstOf(b).height) && FirstOf(b).height <= c <= Height(b)
    ensures var d, s := Replay(base, rooted, b), Replay(base, rooted, Ancestor(b, c));
            && |s.poolLog| <= |d.poolLog| && |s.curveLog| <= |d.curveLog|
            && Fork(d, c).Ok?
            && (Fork(d, c) == Ok(s) <==> Restorable(s, d))
  {
    hide Replay, Orphans, StrayInfos, CachesAgree, Fork;
    ReplayTracks(base, rooted, b, c);
    ForkExact(Replay(base, rooted, Ancestor(b, c)), Replay(base, rooted, b), c);
    ForkRestores(Replay(base, rooted, Ancestor(b, c)), Replay(base, rooted, b), c);
  }

  // ---------------------------------------------------------------------------------------------------------------
  // Rescanning
  // ---------------------------------------------------------------------------------------------------------------

  lemma {:induction false} ExecuteAppend(d: Database, a: seq<Tx>, b: seq<Tx>, height: nat)
    ensures ExecuteAll(d, a + b, height) == ExecuteAll(ExecuteAll(d, a, height), b, height)
    decreases |a|
  {
    hide ExecuteTx;
    if a == [] {
      assert a + b == b;
    } else {
      assert (a + b)[0] == a[0] && (a + b)[1..] == a[1..] + b;
      ExecuteAppend(ExecuteTx(d, a[0], height), a[1..], b, height);
    }
  }

  lemma {:induction false} AllSkipped(d: Database, txs: seq<Tx>, height: nat)
    requires forall tx <- txs :: tx.hash in d.infos
    ensures ExecuteAll(d, txs, height) == d
    decreases |txs|
  {
    hide Dispatch;
    if txs != [] {
      AllSkipped(d, txs[1..], height);
    }
  }

  /** A block of which some transactions were already executed is finished, not repeated: scanning it again, after an
      interruption anywhere in it or after a fork to it, gives what scanning it once gives. */
  lemma Rescan(d: Database, done: seq<Tx>, rest: seq<Tx>, height: nat)
    ensures ExecuteAll(ExecuteAll(d, done, height), done + rest, height) == ExecuteAll(d, done + rest, height)
  {
    hide ExecuteAll;
    var once := ExecuteAll(d, done, height);
    ExecuteAppend(d, done, rest, height);
    ExecuteAppend(once, done, rest, height);
    ExecuteAllKeys(d, done, height);
    AllSkipped(once, done, height);
  }

  // ---------------------------------------------------------------------------------------------------------------
  // A half-executed block that is then replaced
  // ---------------------------------------------------------------------------------------------------------------

  function Hashes(txs: seq<Tx>): set<string> {
    set tx <- txs :: tx.hash
  }

  /** The transactions of a block that are not skipped, when `seen` are the hashes on record. */
  function Effective(seen: set<string>, txs: seq<Tx>): seq<Tx>
    decreases |txs|
  {
    if txs == [] then []
    else if txs[0].hash in seen then Effective(seen, txs[1..])
    else [txs[0]] + Effective(seen + {txs[0].hash}, txs[1..])
  }

  lemma {:induction false} EffectiveRuns(d: Database, txs: seq<Tx>, height: nat)
    ensures ExecuteAll(d, txs, height) == ExecuteAll(d, Effective(d.infos.Keys, txs), height)
    decreases |txs|
  {
    hide Dispatch;
    if txs != [] {
      ExecuteKeeps(d, txs[0], height);
      EffectiveRuns(ExecuteTx(d, txs[0], height), txs[1..], height);
      assert txs[0].hash in d.infos ==> d.infos.Keys + {txs[0].hash} == d.infos.Keys;
      assert txs[0].hash !in d.infos ==>
          Effective(d.infos.Keys, txs)[1..] == Effective(d.infos.Keys + {txs[0].hash}, txs[1..]);
    }
  }

  /** Having run some of them first, what is left to run is the rest. */
  lemma {:induction false} EffectiveAfter(seen: set<string>, txs: seq<Tx>, a: seq<Tx>, c: seq<Tx>)
    requires Effective(seen, txs) == a + c
    ensures Effective(seen + Hashes(a), txs) == c
    decreases |txs|
  {
    if a == [] {
      assert seen + Hashes(a) == seen && a + c == c;
    } else if txs[0].hash in seen {
      EffectiveAfter(seen, txs[1..], a, c);
    } else {
      assert a[0] == Effective(seen, txs)[0] == txs[0];
      assert Effective(seen + {txs[0].hash}, txs[1..]) == (a + c)[1..] == a[1..] + c;
      EffectiveAfter(seen + {txs[0].hash}, txs[1..], a[1..], c);
      assert a == [a[0]] + a[1..];
      assert seen + {txs[0].hash} + Hashes(a[1..]) == seen + Hashes(a);
    }
  }

  lemma {:induction false} EffectiveHashes(seen: set<string>, txs: seq<Tx>)
    ensures seen + Hashes(Effective(seen, txs)) == seen + Hashes(txs)
    decreases |txs|
  {
    if txs != [] {
      var more := if txs[0].hash in seen then seen else seen + {txs[0].hash};
      EffectiveHashes(more, txs[1..]);
      assert Hashes(txs) == {txs[0].hash} + Hashes(txs[1..]) by { assert txs == [txs[0]] + txs[1..]; }
      if txs[0].hash !in seen {
        var rest := Effective(more, txs[1..]);
        assert Hashes([txs[0]] + rest) == {txs[0].hash} + Hashes(rest);
      }
    }
  }

  /** A block of which `done` was executed, then replaced by a sibling with transactions `txs`: scanning the sibling
      gives what scanning it alone gives when what `done` ran is how the sibling's run begins, and only when every
      transaction that `done` recorded is also in the sibling. */
  lemma HalfBlock(d: Database, done: seq<Tx>, txs: seq<Tx>, height: nat)
    ensures Effective(d.infos.Keys, done) <= Effective(d.infos.Keys, txs) ==>
              ExecuteAll(ExecuteAll(d, done, height), txs, height) == ExecuteAll(d, txs, height)
    ensures ExecuteAll(ExecuteAll(d, done, height), txs, height) == ExecuteAll(d, txs, height) ==>
              Hashes(done) <= d.infos.Keys + Hashes(txs)
  {
    hide ExecuteAll;
    var seen, once := d.infos.Keys, ExecuteAll(d, done, height);
    var a, b := Effective(seen, done), Effective(seen, txs);
    ExecuteAllKeys(d, done, height);
    ExecuteAllKeys(d, txs, height);
    ExecuteAllKeys(once, txs, height);
    if a <= b {
      var c := b[|a|..];
      assert b == a + c;
      EffectiveRuns(d, done, height);
      EffectiveRuns(d, txs, height);
      EffectiveRuns(once, txs, height);
      EffectiveHashes(seen, done);
      EffectiveAfter(seen, txs, a, c);
      ExecuteAppend(d, a, c, height);
    }
  }

  /** For siblings without a common transaction: exactly when nothing of the replaced one was run. */
  lemma SiblingIff(d: Database, done: seq<Tx>, txs: seq<Tx>, height: nat)
    requires Hashes(done) !! Hashes(txs)
    ensures ExecuteAll(ExecuteAll(d, done, height), txs, height) == ExecuteAll(d, txs, height) <==>
            forall tx <- done :: tx.hash in d.infos
  {
    hide ExecuteAll;
    HalfBlock(d, done, txs, height);
    if forall tx <- done :: tx.hash in d.infos {
      AllSkipped(d, done, height);
    } else {
      var tx :| tx in done && tx.hash !in d.infos;
      assert tx.hash in Hashes(done);
    }
  }

  // ---------------------------------------------------------------------------------------------------------------
  // Plain chains are always restorable
  // ---------------------------------------------------------------------------------------------------------------

  /** Neither a deploy nor a consensus operation, and nothing sent straight to a reserves address. */
  predicate Plain(op: Op) {
    !op.DeployOp? && !op.StakeOp? && !op.UnstakeOp? && Giftless(op)
  }

  /** What a write other than a deploy adds to the drc-20 ticks and to the two logs that account for them. */
  lemma StepRows(d: Database, step: Step, height: nat) returns (c: Entry<CurveRevert>)
    requires Apply(d, step, height).Ok? && !step.DeployTick?
    ensures var d' := Apply(d, step, height).value;
            && d'.drc20.tokens.Keys <= d.drc20.tokens.Keys + (if step.OpenPool? then {LpTick(step.pool)} else {})
            && d'.poolLog == d.poolLog + (if step.OpenPool? then [Entry(step.pool, height)] else [])
            && (d'.curveLog == d.curveLog || d'.curveLog == d.curveLog + [c])
  {
    hide CurveToken, TransferIn, MintIn, BurnIn, Refreshed;
    c := Entry(Deployed(""), 0);
    if Ledgerly(step) {
      LedgerlyStep(d, step, height);
    } else if step.OpenCurve? {
      c := Entry(Deployed(step.id), height);
    } else if step.SetCurve? {
      c := Entry(Traded(step.id, d.curves[step.id].amt0, d.curves[step.id].amt1), height);
    }
  }

  lemma StepOrphans(s: Database, d: Database, step: Step, height: nat, h: nat)
    requires Tracks(s, d, h) && height > h && Apply(d, step, height).Ok? && !step.DeployTick?
    ensures Tracks(s, Apply(d, step, height).value, h)
    ensures Orphans(s, Apply(d, step, height).value) <= Orphans(s, d)
  {
    hide Apply, Tracks, Born;
    ApplyTracks(s, d, step, height, h);
    LogsAre(s, d, h);
    var d' := Apply(d, step, height).value;
    var c := StepRows(d, step, height);
    var pools, curves := Late(s.poolLog, d.poolLog), Late(s.curveLog, d.curveLog);
    var p := if step.OpenPool? then Entry(step.pool, height) else Entry(V2(""), 0);
    BornMore(pools, curves, p, c);
    BornMore(pools + [p], curves, p, c);
    assert d.poolLog + [] == d.poolLog;
    assert Late(s.curveLog, d.curveLog + [c]) == curves + [c];
    assert Late(s.poolLog, d.poolLog + [p]) == pools + [p];
  }

  lemma LogsAre(s: Database, d: Database, h: nat)
    requires Tracks(s, d, h)
    ensures |s.poolLog| <= |d.poolLog| && |s.curveLog| <= |d.curveLog|
  {}

  lemma {:induction false} RunRestorable(s: Database, d: Database, script: seq<Step>, height: nat, h: nat)
    requires Tracks(s, d, h) && height > h && Run(d, script, height).Ok?
    requires forall step <- script :: !step.DeployTick?
    requires Orphans(s, d) == {} && StrayInfos(s, d) == {}
    ensures var d' := Run(d, script, height).value;
            Tracks(s, d', h) && Orphans(s, d') == {} && StrayInfos(s, d') == {}
    decreases |script|
  {
    hide Apply, Tracks, Orphans;
    if script != [] {
      var mid := Apply(d, script[0], height).value;
      StepOrphans(s, d, script[0], height, h);
      StepInfos(d, script[0], height);
      assert StrayInfos(s, mid) == StrayInfos(s, d);
      RunRestorable(s, mid, script[1..], height, h);
    }
  }

  lemma RecordedRestorable(s: Database, d: Database, tx: Tx, height: nat, h: nat)
    requires Tracks(s, d, h) && height > h && tx.hash !in d.infos && ProtocolOf(tx.op) != Consensus
    requires Orphans(s, d) == {} && StrayInfos(s, d) == {}
    ensures var r := Recorded(d, tx, height);
            Tracks(s, r, h) && Orphans(s, r) == {} && StrayInfos(s, r) == {}
  {
    RecordedTracks(s, d, tx, height, h);
    LogsAre(s, d, h);
    hide Tracks, Born;
    assert forall k <- d.infos :: k !in StrayInfos(s, d);
  }

  lemma {:induction false} PlainRestorable(s: Database, d: Database, txs: seq<Tx>, height: nat, h: nat)
    requires Tracks(s, d, h) && height > h && forall tx <- txs :: Plain(tx.op)
    requires Orphans(s, d) == {} && StrayInfos(s, d) == {}
    ensures var d' := ExecuteAll(d, txs, height);
            Tracks(s, d', h) && Orphans(s, d') == {} && StrayInfos(s, d') == {}
    decreases |txs|
  {
    hide Tracks, Orphans, StrayInfos, Dispatch, Recorded;
    if txs != [] {
      var tx := txs[0];
      if tx.hash !in d.infos {
        RecordedRestorable(s, d, tx, height, h);
        var script := DispatchIsRun(Recorded(d, tx, height), tx, height);
        NoDeploys(tx.op, script);
        RunRestorable(s, Recorded(d, tx, height), script, height, h);
      }
      PlainRestorable(s, ExecuteTx(d, tx, height), txs[1..], height, h);
    }
  }

  lemma NoDeploys(op: Op, script: seq<Step>)
    requires AllPermitted(op, script) && !op.DeployOp?
    ensures forall step <- script :: !step.DeployTick?
  {}

  ghost predicate PlainChain(b: Header) {
    && (forall tx <- b.txs :: Plain(tx.op))
    && (b.Link? ==> PlainChain(b.prev))
  }

  lemma {:induction false} PlainOrphans(base: Database, rooted: bool, b: Header, c: nat)
    requires WrittenBy(base, FirstOf(b).height) && FirstOf(b).height <= c <= Height(b) && PlainChain(b)
    ensures var d, s := Replay(base, rooted, b), Replay(base, rooted, Ancestor(b, c));
            Tracks(s, d, c) && Orphans(s, d) == {} && StrayInfos(s, d) == {}
  {
    hide ExecuteAll, Tracks;
    if c == Height(b) {
      ReplayWritten(base, rooted, b);
      TracksSelf(Replay(base, rooted, b), c);
    } else {
      PlainOrphans(base, rooted, b.prev, c);
      PlainRestorable(Replay(base, rooted, Ancestor(b, c)), Replay(base, rooted, b.prev), b.txs, Height(b), c);
    }
  }

  /** A fit starting point: written by its height, conserved, pools sound, caches in agreement, inviters signers. */
  ghost predicate Fit(base: Database, h: nat) {
    WrittenBy(base, h) && Safe(base) && Agreed(base) && InvitersTidy(base)
  }

  lemma {:induction false} PlainAgrees(base: Database, rooted: bool, b: Header)
    requires Fit(base, FirstOf(b).height) && PlainChain(b)
    ensures var d := Replay(base, rooted, b);
            Safe(d) && Agreed(d) && InvitersTidy(d)
  {
    hide ExecuteAll, Safe, Agreed;
    var p := if b.First? then base else Replay(base, rooted, b.prev);
    if b.Link? {
      PlainAgrees(base, rooted, b.prev);
    }
    BlockSafe(p, b.txs, Height(b), true);
    KeepsBoth(p, ExecuteAll(p, b.txs, Height(b)));
    ExecuteAllKeys(p, b.txs, Height(b));
  }

  lemma KeepsBoth(d: Database, d': Database)
    requires Keeps(d, d', true) && Agreed(d)
    ensures Safe(d') && Agreed(d')
  {}

  lemma AgreedCaches(d: Database)
    requires Agreed(d)
    ensures CachesAgree(d)
  {
    forall id | id in d.pools
      ensures Refreshed(d.drc20.tokens, d.meme20.tokens, id, d.pools[id]) == d.pools[id]
    {
      assert PoolAgrees(d, id);
    }
  }

  /** From a fit start, a chain of plain transactions can be forked back exactly to any of its heights. */
  lemma PlainForks(base: Database, rooted: bool, b: Header, c: nat)
    requires Fit(base, FirstOf(b).height) && FirstOf(b).height <= c <= Height(b) && PlainChain(b)
    ensures Fork(Replay(base, rooted, b), c) == Ok(Replay(base, rooted, Ancestor(b, c)))
  {
    hide Replay, Fork, Safe, Agreed, CachesAgree;
    PlainOrphans(base, rooted, b, c);
    PlainPrefix(b, c);
    PlainAgrees(base, rooted, Ancestor(b, c));
    AgreedCaches(Replay(base, rooted, Ancestor(b, c)));
    ForkExact(Replay(base, rooted, Ancestor(b, c)), Replay(base, rooted, b), c);
  }

  lemma {:induction false} PlainPrefix(b: Header, c: nat)
    requires FirstOf(b).height <= c <= Height(b) && PlainChain(b)
    ensures PlainChain(Ancestor(b, c))
  {
    if c != Height(b) {
      PlainPrefix(b.prev, c);
    }
  }
}
