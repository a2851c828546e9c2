/** `fork(h)` after any run: which tables come back exactly, and the three ways in which the rest does not. */
module Rollback {
  import opened Results
  import opened Names
  import opened Logs
  import opened Ledger
  import opened Db

  function Late<T>(early: seq<T>, log: seq<T>): seq<T>
    requires |early| <= |log|
  {
    log[|early|..]
  }

  ghost predicate Extends<T>(early: seq<Entry<T>>, log: seq<Entry<T>>, h: nat) {
    && |early| <= |log|
    && log == early + Late(early, log)
    && AllUpto(early, h)
    && AllAbove(Late(early, log), h)
  }

  /** Rewinding the rows since `s` succeeds, and gives back every token `s` had. */
  ghost predicate BookTracks(s: Book, d: Book, h: nat) {
    && Extends(s.log, d.log, h)
    && Rewind(d.tokens, Late(s.log, d.log)).Ok?
    && s.tokens.Keys <= d.tokens.Keys
    && forall t <- s.tokens :: t in Rewind(d.tokens, Late(s.log, d.log)).value
                            && Rewind(d.tokens, Late(s.log, d.log)).value[t] == s.tokens[t]
  }

  /** The tokens that the given pool and curve rows created, and that a fork deletes. */
  function Born(pools: seq<Entry<PoolId>>, curves: seq<Entry<CurveRevert>>): set<Tick> {
    LpTicks(Opened(pools)) + CurveTicks(curves)
  }

  /** Meme ids are in the meme-20 tables and nowhere else. */
  ghost predicate Typed(drc: set<Tick>, meme: set<Tick>) {
    && (forall t <- drc :: !t.Meme?)
    && (forall t <- meme :: t.Meme?)
  }

  /** The created tokens are new, are there, and are all that is new among the meme tokens. */
  ghost predicate BornApart(early: set<Tick>, earlyMeme: set<Tick>, drc: set<Tick>, meme: set<Tick>, born: set<Tick>) {
    && born !! early
    && born !! earlyMeme
    && born <= drc + meme
    && meme <= earlyMeme + born
  }

  ghost predicate PoolsTrack(early: map<PoolId, Pool>, pools: map<PoolId, Pool>, late: set<PoolId>) {
    && pools.Keys == early.Keys + late
    && early.Keys !! late
    && forall id <- early :: pools[id].tick0 == early[id].tick0 && pools[id].tick1 == early[id].tick1
  }

  /** `h` is where the row was written, or the row survives every fork. */
  predicate Settled(i: Info, h: nat) {
    i.height <= h || i.protocol == Consensus
  }

  ghost predicate InfosTrack(early: map<string, Info>, infos: map<string, Info>, h: nat) {
    && (forall k <- early :: Settled(early[k], h) && k in infos && infos[k] == early[k])
    && (forall k <- infos :: k in early || infos[k].height > h)
  }

  /** `d` was reached from `s`, the state at height `h`, by writes above `h` only. */
  ghost predicate Tracks(s: Database, d: Database, h: nat) {
    && BookTracks(s.drc20, d.drc20, h)
    && BookTracks(s.meme20, d.meme20, h)
    && Typed(d.drc20.tokens.Keys, d.meme20.tokens.Keys)
    && RowsTrack(s, d, h)
    && InfosTrack(s.infos, d.infos, h)
    && d.inviters == s.inviters
  }

  ghost predicate RowsTrack(s: Database, d: Database, h: nat) {
    && Extends(s.poolLog, d.poolLog, h)
    && Extends(s.curveLog, d.curveLog, h)
    && Extends(s.stakeLog, d.stakeLog, h)
    && RewindCurves(d.curves, Late(s.curveLog, d.curveLog)) == s.curves
    && RewindStakes(d.stakes, Late(s.stakeLog, d.stakeLog)) == Ok(s.stakes)
    && PoolsTrack(s.pools, d.pools, Opened(Late(s.poolLog, d.poolLog)))
    && BornApart(s.drc20.tokens.Keys, s.meme20.tokens.Keys, d.drc20.tokens.Keys, d.meme20.tokens.Keys,
                 Born(Late(s.poolLog, d.poolLog), Late(s.curveLog, d.curveLog)))
  }

  /** Every row of `d` was written by height `h`. */
  ghost predicate WrittenBy(d: Database, h: nat) {
    && AllUpto(d.drc20.log, h)
    && AllUpto(d.meme20.log, h)
    && AllUpto(d.poolLog, h)
    && AllUpto(d.curveLog, h)
    && AllUpto(d.stakeLog, h)
    && (forall k <- d.infos :: Settled(d.infos[k], h))
    && Typed(d.drc20.tokens.Keys, d.meme20.tokens.Keys)
  }

  lemma TracksSelf(s: Database, h: nat)
    requires WrittenBy(s, h)
    ensures Tracks(s, s, h)
  {
    assert Late(s.drc20.log, s.drc20.log) == [] && Late(s.meme20.log, s.meme20.log) == [];
    assert Late(s.poolLog, s.poolLog) == [] && Late(s.curveLog, s.curveLog) == [] && Late(s.stakeLog, s.stakeLog) == [];
  }

  // ---------------------------------------------------------------------------------------------------------------
  // One write
  // ---------------------------------------------------------------------------------------------------------------

  lemma ExtendsMore<T>(early: seq<Entry<T>>, log: seq<Entry<T>>, e: Entry<T>, h: nat)
    requires Extends(early, log, h) && e.height > h
    ensures Extends(early, log + [e], h)
    ensures Late(early, log + [e]) == Late(early, log) + [e]
  {
    assert log + [e] == early + (Late(early, log) + [e]);
  }

  lemma PostTracks(s: Book, d: Book, ts: Tokens, e: Entry<Posting>, h: nat)
    requires BookTracks(s, d, h) && e.height > h
    requires Undo(ts, e.row) == Ok(d.tokens) && ts.Keys == d.tokens.Keys
    ensures BookTracks(s, Book(ts, d.log + [e]), h)
  {
    ExtendsMore(s.log, d.log, e, h);
    RewindLast(d.tokens, ts, Late(s.log, d.log), e);
  }

  lemma AddTokenTracks(s: Book, d: Book, tick: Tick, t: Token, h: nat)
    requires BookTracks(s, d, h) && tick !in d.tokens
    ensures BookTracks(s, d.(tokens := d.tokens[tick := t]), h)
  {
    RewindFrame(d.tokens, Late(s.log, d.log), tick, t);
  }

  lemma BookChangeTracks(s: Database, d: Database, tick: Tick, b: Book, h: nat)
    requires Tracks(s, d, h)
    requires BookTracks(BookOf(s, tick), b, h) && b.tokens.Keys == BookOf(d, tick).tokens.Keys
    ensures Tracks(s, WithBook(d, tick, b), h)
  {}

  lemma PostingTracks(s: Database, d: Database, ts: Tokens, p: Posting, height: nat, h: nat)
    requires Tracks(s, d, h) && height > h
    requires Undo(ts, p) == Ok(BookOf(d, p.tick).tokens) && ts.Keys == BookOf(d, p.tick).tokens.Keys
    ensures Tracks(s, Post(d, ts, p, height), h)
  {
    var b := BookOf(d, p.tick);
    assert BookTracks(BookOf(s, p.tick), b, h);
    PostTracks(BookOf(s, p.tick), b, ts, Entry(p, height), h);
    BookChangeTracks(s, d, p.tick, Book(ts, b.log + [Entry(p, height)]), h);
  }

  lemma TransferTracks(s: Database, d: Database, tick: Tick, from: Party, to: Party, amt: int, height: nat, h: nat)
    requires Tracks(s, d, h) && height > h
    requires TransferIn(d, tick, from, to, amt, height).Ok?
    ensures Tracks(s, TransferIn(d, tick, from, to, amt, height).value, h)
  {
    var ts := BookOf(d, tick).tokens;
    TransferUndone(ts, tick, from, to, amt);
    PostingTracks(s, d, Transfer(ts, tick, from, to, amt).value, Posting(from, to, tick, amt), height, h);
  }

  lemma MintTracks(s: Database, d: Database, tick: Tick, to: Party, units: nat, height: nat, h: nat)
    requires Tracks(s, d, h) && height > h
    requires MintIn(d, tick, to, units, height).Ok?
    ensures Tracks(s, MintIn(d, tick, to, units, height).value, h)
  {
    var ts := BookOf(d, tick).tokens;
    MintUndoneIff(ts, tick, to, units);
    PostingTracks(s, d, Mint(ts, tick, to, units).value, Posting(Nobody, to, tick, units), height, h);
  }

  lemma BurnTracks(s: Database, d: Database, tick: Tick, from: Party, units: nat, height: nat, h: nat)
    requires Tracks(s, d, h) && height > h
    requires BurnIn(d, tick, from, units, height).Ok?
    ensures Tracks(s, BurnIn(d, tick, from, units, height).value, h)
  {
    var ts := BookOf(d, tick).tokens;
    BurnUndoneIff(ts, tick, from, units);
    PostingTracks(s, d, Burn(ts, tick, from, units).value, Posting(from, Nobody, tick, units), height, h);
  }

  lemma BornMore(pools: seq<Entry<PoolId>>, curves: seq<Entry<CurveRevert>>, p: Entry<PoolId>, c: Entry<CurveRevert>)
    ensures Opened(pools + [p]) == Opened(pools) + {p.row}
    ensures Born(pools + [p], curves) == Born(pools, curves) + {LpTick(p.row)}
    ensures Born(pools, curves + [c]) == Born(pools, curves) + if c.row.Deployed? then {Meme(c.row.id)} else {}
  {
    assert Opened(pools + [p]) == Opened(pools) + {p.row};
    assert CurveTicks(curves + [c]) == CurveTicks(curves) + if c.row.Deployed? then {Meme(c.row.id)} else {};
  }

  lemma PoolAdded(early: map<PoolId, Pool>, pools: map<PoolId, Pool>, late: set<PoolId>, id: PoolId, p: Pool)
    requires PoolsTrack(early, pools, late) && id !in pools
    ensures PoolsTrack(early, pools[id := p], late + {id})
  {}

  lemma TickAdded(early: set<Tick>, earlyMeme: set<Tick>, drc: set<Tick>, meme: set<Tick>, born: set<Tick>, t: Tick)
    requires BornApart(early, earlyMeme, drc, meme, born) && Typed(drc, meme) && early <= drc && earlyMeme <= meme
    requires t !in (if t.Meme? then meme else drc)
    ensures if t.Meme? then BornApart(early, earlyMeme, drc, meme + {t}, born + {t})
            else BornApart(early, earlyMeme, drc + {t}, meme, born + {t})
  {}

  lemma PoolRowsTrack(s: Database, d: Database, pool: PoolId, tick0: Tick, tick1: Tick, height: nat, h: nat)
    requires RowsTrack(s, d, h) && height > h && pool !in d.pools
    requires s.drc20.tokens.Keys <= d.drc20.tokens.Keys && s.meme20.tokens.Keys <= d.meme20.tokens.Keys
    requires Typed(d.drc20.tokens.Keys, d.meme20.tokens.Keys) && LpTick(pool) !in BookOf(d, LpTick(pool)).tokens
    ensures RowsTrack(s, AddToken(d, LpTick(pool), Token(0, MAX_NUMBER, 0, multiset{})).(
                         pools := d.pools[pool := Pool(tick0, tick1, 0, 0, 0)],
                         poolLog := d.poolLog + [Entry(pool, height)]), h)
  {
    hide PoolsTrack, BornApart, Typed, Born, Opened, RewindCurves, RewindStakes;
    ExtendsMore(s.poolLog, d.poolLog, Entry(pool, height), h);
    var pools, curves := Late(s.poolLog, d.poolLog), Late(s.curveLog, d.curveLog);
    BornMore(pools, curves, Entry(pool, height), Entry(Traded("", 0, 0), 0));
    PoolAdded(s.pools, d.pools, Opened(pools), pool, Pool(tick0, tick1, 0, 0, 0));
    TickAdded(s.drc20.tokens.Keys, s.meme20.tokens.Keys, d.drc20.tokens.Keys, d.meme20.tokens.Keys,
              Born(pools, curves), LpTick(pool));
    assert d.drc20.tokens[LpTick(pool) := Token(0, MAX_NUMBER, 0, multiset{})].Keys == d.drc20.tokens.Keys + {LpTick(pool)};
    assert d.meme20.tokens[LpTick(pool) := Token(0, MAX_NUMBER, 0, multiset{})].Keys == d.meme20.tokens.Keys + {LpTick(pool)};
  }

  lemma OpenPoolTracks(s: Database, d: Database, pool: PoolId, tick0: Tick, tick1: Tick, height: nat, h: nat)
    requires Tracks(s, d, h) && height > h
    requires OpenPoolIn(d, pool, tick0, tick1, height).Ok?
    ensures Tracks(s, OpenPoolIn(d, pool, tick0, tick1, height).value, h)
  {
    var tick := LpTick(pool);
    AddTokenTracks(BookOf(s, tick), BookOf(d, tick), tick, Token(0, MAX_NUMBER, 0, multiset{}), h);
    PoolRowsTrack(s, d, pool, tick0, tick1, height, h);
  }

  lemma CurveLogRewinds(before: map<string, Curve>, after: map<string, Curve>, log: seq<Entry<CurveRevert>>,
                        e: Entry<CurveRevert>)
    requires RewindCurves(after, [e]) == before
    ensures RewindCurves(after, log + [e]) == RewindCurves(before, log)
  {
    assert [e][..0] == [];
    assert (log + [e])[..|log|] == log;
  }

  lemma CurveRowsTrack(s: Database, d: Database, d': Database, e: Entry<CurveRevert>, h: nat)
    requires RowsTrack(s, d, h) && e.height > h
    requires s.drc20.tokens.Keys <= d.drc20.tokens.Keys && s.meme20.tokens.Keys <= d.meme20.tokens.Keys
    requires Typed(d.drc20.tokens.Keys, d.meme20.tokens.Keys)
    requires RewindCurves(d'.curves, [e]) == d.curves && d'.curveLog == d.curveLog + [e]
    requires d'.poolLog == d.poolLog && d'.stakeLog == d.stakeLog && d'.pools == d.pools && d'.stakes == d.stakes
    requires d'.drc20.tokens.Keys == d.drc20.tokens.Keys
    requires d'.meme20.tokens.Keys == d.meme20.tokens.Keys + if e.row.Deployed? then {Meme(e.row.id)} else {}
    requires e.row.Deployed? ==> Meme(e.row.id) !in d.meme20.tokens
    ensures RowsTrack(s, d', h)
  {
    hide PoolsTrack, Born, Opened, RewindCurves, RewindStakes;
    ExtendsMore(s.curveLog, d.curveLog, e, h);
    CurveLogRewinds(d.curves, d'.curves, Late(s.curveLog, d.curveLog), e);
    BornMore(Late(s.poolLog, d.poolLog), Late(s.curveLog, d.curveLog), Entry(V2(""), 0), e);
  }

  lemma OpenCurveTracks(s: Database, d: Database, id: string, creator: Signer, reserve: nat, height: nat, h: nat)
    requires Tracks(s, d, h) && height > h
    requires OpenCurveIn(d, id, creator, reserve, height).Ok?
    ensures Tracks(s, OpenCurveIn(d, id, creator, reserve, height).value, h)
  {
    var e := Entry(Deployed(id), height);
    var d' := OpenCurveIn(d, id, creator, reserve, height).value;
    AddTokenTracks(s.meme20, d.meme20, Meme(id), CurveToken(id, creator, reserve), h);
    assert [e][..0] == [];
    assert RewindCurves(d'.curves, [e]) == d'.curves - {id} == d.curves;
    CurveRowsTrack(s, d, d', e, h);
  }

  lemma SetCurveTracks(s: Database, d: Database, id: string, amt0: nat, amt1: nat, height: nat, h: nat)
    requires Tracks(s, d, h) && height > h
    requires SetCurveIn(d, id, amt0, amt1, height).Ok?
    ensures Tracks(s, SetCurveIn(d, id, amt0, amt1, height).value, h)
  {
    var c := d.curves[id];
    var e := Entry(Traded(id, c.amt0, c.amt1), height);
    var d' := SetCurveIn(d, id, amt0, amt1, height).value;
    assert [e][..0] == [];
    assert RewindCurves(d'.curves, [e]) == d'.curves[id := d'.curves[id].(amt0 := c.amt0, amt1 := c.amt1)];
    assert RewindCurves(d'.curves, [e]) == d.curves;
    CurveRowsTrack(s, d, d', e, h);
  }

  lemma StakeLogRewinds(before: map<string, Stake>, after: map<string, Stake>, log: seq<Entry<StakeRevert>>,
                        e: Entry<StakeRevert>)
    requires RewindStakes(after, [e]) == Ok(before)
    ensures RewindStakes(after, log + [e]) == RewindStakes(before, log)
  {
    assert [e][..0] == [];
    assert (log + [e])[..|log|] == log;
  }

  lemma StakeRowsTrack(s: Database, d: Database, stakes: map<string, Stake>, e: Entry<StakeRevert>, h: nat)
    requires Tracks(s, d, h) && e.height > h
    requires RewindStakes(stakes, [e]) == Ok(d.stakes)
    ensures Tracks(s, d.(stakes := stakes, stakeLog := d.stakeLog + [e]), h)
  {
    StakeLogRewinds(d.stakes, stakes, Late(s.stakeLog, d.stakeLog), e);
    ExtendsMore(s.stakeLog, d.stakeLog, e, h);
  }

  lemma OpenStakeTracks(s: Database, d: Database, id: string, holder: Signer, amt: int, height: nat, h: nat)
    requires Tracks(s, d, h) && height > h
    requires OpenStakeIn(d, id, holder, amt, height).Ok?
    ensures Tracks(s, OpenStakeIn(d, id, holder, amt, height).value, h)
  {
    var d' := OpenStakeIn(d, id, holder, amt, height).value;
    var e := Entry(Staked(id), height);
    assert [e][..0] == [];
    assert d'.stakes - {id} == d.stakes;
    StakeRowsTrack(s, d, d'.stakes, e, h);
  }

  lemma CloseStakeTracks(s: Database, d: Database, id: string, score: nat, height: nat, h: nat)
    requires Tracks(s, d, h) && height > h
    requires CloseStakeIn(d, id, score, height).Ok?
    ensures Tracks(s, CloseStakeIn(d, id, score, height).value, h)
  {
    var d' := CloseStakeIn(d, id, score, height).value;
    var e := Entry(Unstaked(id), height);
    assert [e][..0] == [];
    assert d'.stakes[id := d'.stakes[id].(status := Active)] == d.stakes;
    StakeRowsTrack(s, d, d'.stakes, e, h);
  }

  lemma OtherTracks(s: Database, d: Database, step: Step, height: nat, h: nat)
    requires Tracks(s, d, h) && height > h
    requires step.DeployTick? || step.Refresh? || step.MarkTraded?
    requires Apply(d, step, height).Ok?
    ensures Tracks(s, Apply(d, step, height).value, h)
  {
    hide Born, Opened, RewindCurves, RewindStakes;
    if step.DeployTick? {
      AddTokenTracks(s.drc20, d.drc20, step.tick, Token(0, step.max, step.lim, multiset{}), h);
    }
  }

  /** Every single write above `h` keeps the state rewindable to `s`. */
  lemma ApplyTracks(s: Database, d: Database, step: Step, height: nat, h: nat)
    requires Tracks(s, d, h) && height > h
    requires Apply(d, step, height).Ok?
    ensures Tracks(s, Apply(d, step, height).value, h)
  {
    hide Tracks, TransferIn, MintIn, BurnIn, OpenPoolIn, OpenCurveIn, SetCurveIn, OpenStakeIn, CloseStakeIn;
    match step
    case Move(tick, from, to, amt) => TransferTracks(s, d, tick, from, to, amt, height, h);
    case MintTo(tick, to, units) => MintTracks(s, d, tick, to, units, height, h);
    case BurnFrom(tick, from, units) => BurnTracks(s, d, tick, from, units, height, h);
    case DeployTick(_, _, _) => OtherTracks(s, d, step, height, h);
    case OpenPool(pool, tick0, tick1) => OpenPoolTracks(s, d, pool, tick0, tick1, height, h);
    case Refresh(_) => OtherTracks(s, d, step, height, h);
    case OpenCurve(id, creator, reserve) => OpenCurveTracks(s, d, id, creator, reserve, height, h);
    case SetCurve(id, amt0, amt1) => SetCurveTracks(s, d, id, amt0, amt1, height, h);
    case OpenStake(id, holder, stake) => OpenStakeTracks(s, d, id, holder, stake, height, h);
    case CloseStake(id, score) => CloseStakeTracks(s, d, id, score, height, h);
    case MarkTraded(_) => OtherTracks(s, d, step, height, h);
  }

  lemma {:induction false} RunTracks(s: Database, d: Database, script: seq<Step>, height: nat, h: nat)
    requires Tracks(s, d, h) && height > h
    requires Run(d, script, height).Ok?
    ensures Tracks(s, Run(d, script, height).value, h)
    decreases |script|
  {
    if script != [] {
      ApplyTracks(s, d, script[0], height, h);
      RunTracks(s, Apply(d, script[0], height).value, script[1..], height, h);
    }
  }

  // ---------------------------------------------------------------------------------------------------------------
  // The fork
  // ---------------------------------------------------------------------------------------------------------------

  /** Every cached reserve and liquidity total is what the ledger says. */
  ghost predicate CachesAgree(s: Database) {
    RefreshAll(s.drc20.tokens, s.meme20.tokens, s.pools) == s.pools
  }

  /** The drc-20 ticks deployed since `s`: `drc20Deploy` leaves no revert row. */
  function Orphans(s: Database, d: Database): set<Tick>
    requires |s.poolLog| <= |d.poolLog| && |s.curveLog| <= |d.curveLog|
  {
    d.drc20.tokens.Keys - s.drc20.tokens.Keys - Born(Late(s.poolLog, d.poolLog), Late(s.curveLog, d.curveLog))
  }

  /** The `consensus_info` rows written since `s`: `delInfo` skips that table. */
  function StrayInfos(s: Database, d: Database): set<string> {
    set k <- d.infos | k !in s.infos && d.infos[k].protocol == Consensus
  }

  lemma LogsCut(s: Database, d: Database, h: nat)
    requires Tracks(s, d, h)
    ensures Above(d.drc20.log, h) == Late(s.drc20.log, d.drc20.log) && Upto(d.drc20.log, h) == s.drc20.log
    ensures Above(d.meme20.log, h) == Late(s.meme20.log, d.meme20.log) && Upto(d.meme20.log, h) == s.meme20.log
    ensures Above(d.poolLog, h) == Late(s.poolLog, d.poolLog) && Upto(d.poolLog, h) == s.poolLog
    ensures Above(d.curveLog, h) == Late(s.curveLog, d.curveLog) && Upto(d.curveLog, h) == s.curveLog
    ensures Above(d.stakeLog, h) == Late(s.stakeLog, d.stakeLog) && Upto(d.stakeLog, h) == s.stakeLog
  {
    SplitAt(s.drc20.log, Late(s.drc20.log, d.drc20.log), h);
    SplitAt(s.meme20.log, Late(s.meme20.log, d.meme20.log), h);
    SplitAt(s.poolLog, Late(s.poolLog, d.poolLog), h);
    SplitAt(s.curveLog, Late(s.curveLog, d.curveLog), h);
    SplitAt(s.stakeLog, Late(s.stakeLog, d.stakeLog), h);
  }

  /** What the ledger phases of the fork leave: the meme-20 tables exactly, the drc-20 tables on every tick `s` had. */
  lemma TokensRestored(s: Database, d: Database, h: nat)
    requires Tracks(s, d, h)
    ensures var latePools := LpTicks(Opened(Late(s.poolLog, d.poolLog)));
            var lateCurves := CurveTicks(Late(s.curveLog, d.curveLog));
            var drc := Rewind(d.drc20.tokens, Late(s.drc20.log, d.drc20.log));
            var meme := Rewind(d.meme20.tokens, Late(s.meme20.log, d.meme20.log));
            && drc.Ok? && meme.Ok?
            && meme.value - lateCurves - latePools == s.meme20.tokens
            && (drc.value - latePools).Keys == s.drc20.tokens.Keys + Orphans(s, d)
            && forall t <- s.drc20.tokens :: (drc.value - latePools)[t] == s.drc20.tokens[t]
  {
    hide RewindCurves, RewindStakes, Rewind;
    RewindKeys(d.drc20.tokens, Late(s.drc20.log, d.drc20.log));
    RewindKeys(d.meme20.tokens, Late(s.meme20.log, d.meme20.log));
  }

  lemma PoolsRestored(drc: Tokens, meme: Tokens, early: map<PoolId, Pool>, pools: map<PoolId, Pool>, late: set<PoolId>)
    requires PoolsTrack(early, pools, late)
    ensures RefreshAll(drc, meme, pools - late) == RefreshAll(drc, meme, early)
  {}

  /** After a fork to `h`, both ledgers, the curves, the consensus records and all revert rows are what they were at
      `h`, on every tick that existed then; only orphaned ticks, stray infos and refreshed caches can differ. */
  lemma ForkRestores(s: Database, d: Database, h: nat)
    requires Tracks(s, d, h)
    ensures Fork(d, h).Ok?
    ensures var f := Fork(d, h).value;
            && f.meme20 == s.meme20
            && f.drc20.log == s.drc20.log
            && f.drc20.tokens.Keys == s.drc20.tokens.Keys + Orphans(s, d)
            && (forall t <- s.drc20.tokens :: f.drc20.tokens[t] == s.drc20.tokens[t])
            && f.curves == s.curves && f.curveLog == s.curveLog
            && f.stakes == s.stakes && f.stakeLog == s.stakeLog
            && f.poolLog == s.poolLog && f.pools == RefreshAll(f.drc20.tokens, f.meme20.tokens, s.pools)
            && f.infos == KeptInfos(d.infos, h)
            && f.inviters == s.inviters
  {
    LogsCut(s, d, h);
    TokensRestored(s, d, h);
    var f := Fork(d, h).value;
    PoolsRestored(f.drc20.tokens, f.meme20.tokens, s.pools, d.pools, Opened(Late(s.poolLog, d.poolLog)));
  }

  lemma SameTokens(a: Tokens, b: Tokens)
    requires a.Keys == b.Keys && forall t <- a :: b[t] == a[t]
    ensures a == b
  {}

  lemma InfosCut(early: map<string, Info>, infos: map<string, Info>, h: nat)
    requires InfosTrack(early, infos, h)
    requires forall k <- infos :: k !in early ==> infos[k].protocol != Consensus
    ensures KeptInfos(infos, h) == early
  {}

  /** With nothing orphaned, the fork gives back `s` with every cache refreshed. */
  lemma ForkClean(s: Database, d: Database, h: nat)
    requires Tracks(s, d, h) && Orphans(s, d) == {} && StrayInfos(s, d) == {}
    ensures Fork(d, h) == Ok(s.(pools := RefreshAll(s.drc20.tokens, s.meme20.tokens, s.pools)))
  {
    ForkRestores(s, d, h);
    assert forall k <- d.infos :: k !in StrayInfos(s, d);
    InfosCut(s.infos, d.infos, h);
    SameTokens(s.drc20.tokens, Fork(d, h).value.drc20.tokens);
  }

  /** Composite rollback, exactly: a fork gives back the whole database of height `h` if and only if no tick was
      deployed since, no consensus transaction was recorded since, and the caches agreed with the ledger at `h`. */
  lemma ForkExact(s: Database, d: Database, h: nat)
    requires Tracks(s, d, h)
    ensures Fork(d, h) == Ok(s) <==> Orphans(s, d) == {} && StrayInfos(s, d) == {} && CachesAgree(s)
  {
    ForkRestores(s, d, h);
    if t :| t in Orphans(s, d) {
      assert t in Fork(d, h).value.drc20.tokens && t !in s.drc20.tokens;
    } else if k :| k in StrayInfos(s, d) {
      assert k in Fork(d, h).value.infos && k !in s.infos;
    } else {
      ForkClean(s, d, h);
    }
  }
}
