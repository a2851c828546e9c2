/** What forks do together, and what they keep of the invariants. */
module ForkLaws {
  import opened Results
  import opened Names
  import opened Logs
  import opened Ledger
  import opened Db
  import opened Quotes
  import opened Rollback
  import opened PoolSafety
  import opened PumpSafety

  // ---------------------------------------------------------------------------------------------------------------
  // Two forks in a row
  // ---------------------------------------------------------------------------------------------------------------

  lemma {:induction false} RewindConcat(ts: Tokens, a: seq<Entry<Posting>>, b: seq<Entry<Posting>>)
    ensures Rewind(ts, a + b) == if Rewind(ts, b).Ok? then Rewind(Rewind(ts, b).value, a) else Failed
    decreases |b|
  {
    if b == [] {
      assert a + b == a;
    } else {
      assert (a + b)[|a + b| - 1] == b[|b| - 1] && (a + b)[..|a + b| - 1] == a + b[..|b| - 1];
      if Undo(ts, b[|b| - 1].row).Ok? {
        RewindConcat(Undo(ts, b[|b| - 1].row).value, a, b[..|b| - 1]);
      }
    }
  }

  lemma UndoDrop(ts: Tokens, drop: set<Tick>, p: Posting)
    requires Undo(ts, p).Ok? && p.tick !in drop
    ensures Undo(ts - drop, p) == Ok(Undo(ts, p).value - drop)
  {
    var prev := Undo(ts, p).value;
    assert (ts - drop)[p.tick := prev[p.tick]] == prev - drop;
  }

  /** Dropping tokens that no row names does not disturb the rewinding. */
  lemma {:induction false} RewindDrop(ts: Tokens, drop: set<Tick>, log: seq<Entry<Posting>>)
    requires Rewind(ts, log).Ok? && forall e <- log :: e.row.tick !in drop
    ensures Rewind(ts - drop, log) == Ok(Rewind(ts, log).value - drop)
    decreases |log|
  {
    hide Undo;
    if log != [] {
      assert log[|log| - 1] in log;
      UndoDrop(ts, drop, log[|log| - 1].row);
      RewindDrop(Undo(ts, log[|log| - 1].row).value, drop, log[..|log| - 1]);
    }
  }

  lemma {:induction false} CurvesConcat(curves: map<string, Curve>, a: seq<Entry<CurveRevert>>, b: seq<Entry<CurveRevert>>)
    ensures RewindCurves(curves, a + b) == RewindCurves(RewindCurves(curves, b), a)
    decreases |b|
  {
    if b == [] {
      assert a + b == a;
    } else {
      var e := b[|b| - 1];
      assert b == b[..|b| - 1] + [e] && a + b == (a + b[..|b| - 1]) + [e];
      var prev := RewindCurves(curves, [e]);
      CurveLogRewinds(prev, curves, a + b[..|b| - 1], e);
      CurveLogRewinds(prev, curves, b[..|b| - 1], e);
      CurvesConcat(prev, a, b[..|b| - 1]);
    }
  }

  lemma {:induction false} StakesConcat(stakes: map<string, Stake>, a: seq<Entry<StakeRevert>>, b: seq<Entry<StakeRevert>>)
    requires RewindStakes(stakes, b).Ok?
    ensures RewindStakes(stakes, a + b) == RewindStakes(RewindStakes(stakes, b).value, a)
    decreases |b|
  {
    if b == [] {
      assert a + b == a;
    } else {
      var e := b[|b| - 1];
      assert b == b[..|b| - 1] + [e] && a + b == (a + b[..|b| - 1]) + [e];
      assert (a + b)[..|a + b| - 1] == a + b[..|b| - 1];
      match e.row
      case Staked(id) => StakesConcat(stakes - {id}, a, b[..|b| - 1]);
      case Unstaked(id) =>
        StakesConcat(stakes[id := stakes[id].(status := Active)], a, b[..|b| - 1]);
    }
  }

  lemma BornConcat(p: seq<Entry<PoolId>>, q: seq<Entry<PoolId>>, a: seq<Entry<CurveRevert>>, b: seq<Entry<CurveRevert>>)
    ensures Opened(p + q) == Opened(p) + Opened(q)
    ensures LpTicks(Opened(p + q)) == LpTicks(Opened(p)) + LpTicks(Opened(q))
    ensures CurveTicks(a + b) == CurveTicks(a) + CurveTicks(b)
  {
    assert Opened(p + q) == Opened(p) + Opened(q);
  }

  lemma LateConcat<T>(s2: seq<T>, s1: seq<T>, d: seq<T>)
    requires |s2| <= |s1| <= |d| && s1 == s2 + Late(s2, s1) && d == s1 + Late(s1, d)
    ensures Late(s2, d) == Late(s2, s1) + Late(s1, d)
  {}

  /** One ledger through two forks: the rows of the middle stretch name none of the tokens the first fork deleted. */
  lemma BookTwice(s2: Book, s1: Book, d: Book, drop: set<Tick>, h2: nat, h1: nat)
    requires BookTracks(s1, d, h1) && BookTracks(s2, s1, h2) && BookTracks(s2, d, h2) && drop !! s1.tokens.Keys
    ensures var r1 := Rewind(d.tokens, Late(s1.log, d.log)).value;
            Rewind(r1 - drop, Late(s2.log, s1.log)) == Ok(Rewind(d.tokens, Late(s2.log, d.log)).value - drop)
  {
    LateConcat(s2.log, s1.log, d.log);
    RewindConcat(d.tokens, Late(s2.log, s1.log), Late(s1.log, d.log));
    RewindKeys(s1.tokens, Late(s2.log, s1.log));
    RewindDrop(Rewind(d.tokens, Late(s1.log, d.log)).value, drop, Late(s2.log, s1.log));
  }

  lemma PoolsTwice(drc1: Tokens, meme1: Tokens, drc: Tokens, meme: Tokens, pools: map<PoolId, Pool>,
                   late1: set<PoolId>, late2: set<PoolId>)
    ensures RefreshAll(drc, meme, RefreshAll(drc1, meme1, pools - late1) - late2) ==
            RefreshAll(drc, meme, pools - (late2 + late1))
  {}

  lemma InfosTwice(infos: map<string, Info>, h2: nat, h1: nat)
    requires h2 <= h1
    ensures KeptInfos(KeptInfos(infos, h1), h2) == KeptInfos(infos, h2)
  {}

  /** What a fork computes, with its logs already cut. */
  lemma ForkIs(s: Database, d: Database, h: nat)
    requires Tracks(s, d, h)
    ensures Fork(d, h).Ok?
    ensures var latePools, lateCurves := Opened(Late(s.poolLog, d.poolLog)), Late(s.curveLog, d.curveLog);
            var f := Fork(d, h).value;
            && Rewind(d.drc20.tokens, Late(s.drc20.log, d.drc20.log)).Ok?
            && Rewind(d.meme20.tokens, Late(s.meme20.log, d.meme20.log)).Ok?
            && f.drc20.tokens == Rewind(d.drc20.tokens, Late(s.drc20.log, d.drc20.log)).value - LpTicks(latePools)
            && f.meme20.tokens == Rewind(d.meme20.tokens, Late(s.meme20.log, d.meme20.log)).value
                                  - CurveTicks(lateCurves) - LpTicks(latePools)
            && f.drc20.log == s.drc20.log && f.meme20.log == s.meme20.log
            && f.poolLog == s.poolLog && f.curveLog == s.curveLog && f.stakeLog == s.stakeLog
            && f.pools == RefreshAll(f.drc20.tokens, f.meme20.tokens, d.pools - latePools)
            && f.infos == KeptInfos(d.infos, h)
            && f.curves == s.curves && f.stakes == s.stakes && f.inviters == d.inviters
  {
    LogsCut(s, d, h);
    hide Above, Upto, Rewind, RewindCurves, RewindStakes, RefreshAll, KeptInfos, BornApart, PoolsTrack, InfosTrack, Typed;
  }

  /** After the first of two forks, what the second one starts from. */
  lemma LogsCutAgain(s2: Database, s1: Database, h2: nat)
    requires Tracks(s2, s1, h2)
    ensures Above(s1.drc20.log, h2) == Late(s2.drc20.log, s1.drc20.log) && Upto(s1.drc20.log, h2) == s2.drc20.log
    ensures RewindCurves(s1.curves, Above(s1.curveLog, h2)) == s2.curves
    ensures RewindStakes(s1.stakes, Above(s1.stakeLog, h2)) == Ok(s2.stakes)
  {
    LogsCut(s2, s1, h2);
  }

  /** Forking in two stages is forking once, whatever the chain between holds: deploys and consensus operations too. */
  lemma ForkTwice(s2: Database, s1: Database, d: Database, h2: nat, h1: nat)
    requires h2 <= h1 && Tracks(s1, d, h1) && Tracks(s2, s1, h2) && Tracks(s2, d, h2)
    ensures Fork(d, h1).Ok? && Fork(Fork(d, h1).value, h2) == Fork(d, h2)
  {
    ForkIs(s1, d, h1);
    ForkIs(s2, d, h2);
    LogsCut(s2, s1, h2);
    LogsCutAgain(s2, s1, h2);
    var f1 := Fork(d, h1).value;
    var f2 := Fork(d, h2).value;
    TwiceParts(s2, s1, d, f1, h2, h1);
    InfosTwice(d.infos, h2, h1);
    hide Above, Upto, Rewind, RewindCurves, RewindStakes, RefreshAll, KeptInfos, Tracks, LpTicks, CurveTicks, Opened;
    assert Fork(f1, h2).Ok?;
    var g := Fork(f1, h2).value;
    assert g.pools == f2.pools by {
      PoolsTwice(f1.drc20.tokens, f1.meme20.tokens, f2.drc20.tokens, f2.meme20.tokens, d.pools,
                 Opened(Late(s1.poolLog, d.poolLog)), Opened(Late(s2.poolLog, s1.poolLog)));
    }
    assert g == f2;
  }

  lemma TwiceParts(s2: Database, s1: Database, d: Database, f1: Database, h2: nat, h1: nat)
    requires Tracks(s1, d, h1) && Tracks(s2, s1, h2) && Tracks(s2, d, h2) && Fork(d, h1) == Ok(f1)
    ensures var pools2, curves2 := Opened(Late(s2.poolLog, s1.poolLog)), Late(s2.curveLog, s1.curveLog);
            var pools, curves := Opened(Late(s2.poolLog, d.poolLog)), Late(s2.curveLog, d.curveLog);
            var drc := Rewind(f1.drc20.tokens, Late(s2.drc20.log, s1.drc20.log));
            var meme := Rewind(f1.meme20.tokens, Late(s2.meme20.log, s1.meme20.log));
            && drc.Ok? && meme.Ok?
            && drc.value - LpTicks(pools2) == Rewind(d.drc20.tokens, Late(s2.drc20.log, d.drc20.log)).value - LpTicks(pools)
            && meme.value - CurveTicks(curves2) - LpTicks(pools2) ==
               Rewind(d.meme20.tokens, Late(s2.meme20.log, d.meme20.log)).value - CurveTicks(curves) - LpTicks(pools)
            && pools == pools2 + Opened(Late(s1.poolLog, d.poolLog))
  {
    ForkIs(s1, d, h1);
    TracksParts(s1, d, h1);
    TracksParts(s2, s1, h2);
    TracksParts(s2, d, h2);
    hide Rewind, Fork, LpTicks, CurveTicks, Opened, Tracks, BookTracks;
    LateConcat(s2.poolLog, s1.poolLog, d.poolLog);
    LateConcat(s2.curveLog, s1.curveLog, d.curveLog);
    BornConcat(Late(s2.poolLog, s1.poolLog), Late(s1.poolLog, d.poolLog),
               Late(s2.curveLog, s1.curveLog), Late(s1.curveLog, d.curveLog));
    var lp, cv := LpTicks(Opened(Late(s1.poolLog, d.poolLog))), CurveTicks(Late(s1.curveLog, d.curveLog));
    BookTwice(s2.drc20, s1.drc20, d.drc20, lp, h2, h1);
    BookTwice(s2.meme20, s1.meme20, d.meme20, cv + lp, h2, h1);
    var l2, c2 := LpTicks(Opened(Late(s2.poolLog, s1.poolLog))), CurveTicks(Late(s2.curveLog, s1.curveLog));
    Dropped(Rewind(d.meme20.tokens, Late(s1.meme20.log, d.meme20.log)).value, cv, lp, {}, {});
    Dropped(Rewind(d.meme20.tokens, Late(s2.meme20.log, d.meme20.log)).value, cv, lp, c2, l2);
    Dropped(Rewind(d.drc20.tokens, Late(s2.drc20.log, d.drc20.log)).value, {}, lp, {}, l2);
  }

  lemma Dropped(ts: Tokens, a: set<Tick>, b: set<Tick>, a2: set<Tick>, b2: set<Tick>)
    ensures ts - a - b == ts - (a + b)
    ensures ts - (a + b) - a2 - b2 == ts - (a2 + a) - (b2 + b)
    ensures ts - b - b2 == ts - (b2 + b)
  {}

  lemma TracksParts(s: Database, d: Database, h: nat)
    requires Tracks(s, d, h)
    ensures BookTracks(s.drc20, d.drc20, h) && BookTracks(s.meme20, d.meme20, h)
    ensures |s.drc20.log| <= |d.drc20.log| && |s.meme20.log| <= |d.meme20.log|
    ensures |s.poolLog| <= |d.poolLog| && d.poolLog == s.poolLog + Late(s.poolLog, d.poolLog)
    ensures |s.curveLog| <= |d.curveLog| && d.curveLog == s.curveLog + Late(s.curveLog, d.curveLog)
    ensures var lp, cv := LpTicks(Opened(Late(s.poolLog, d.poolLog))), CurveTicks(Late(s.curveLog, d.curveLog));
            && lp !! s.drc20.tokens.Keys && (cv + lp) !! s.meme20.tokens.Keys
  {
    hide Rewind, LpTicks, CurveTicks, Opened, PoolsTrack, InfosTrack, Typed, RewindCurves, RewindStakes;
  }

  // ---------------------------------------------------------------------------------------------------------------
  // A forked state can be forked again
  // ---------------------------------------------------------------------------------------------------------------

  /** Every token of `ts` is in `big`, as it is. */
  ghost predicate Within(ts: Tokens, big: Tokens) {
    forall t <- ts :: t in big && big[t] == ts[t]
  }

  lemma UndoWithin(ts: Tokens, big: Tokens, p: Posting)
    requires Within(ts, big) && Undo(ts, p).Ok?
    ensures Undo(big, p).Ok? && Within(Undo(ts, p).value, Undo(big, p).value)
  {
    assert p.tick in ts && big[p.tick] == ts[p.tick];
  }

  /** Tokens that the rows do not know of do not disturb the rewinding. */
  lemma {:induction false} RewindWithin(ts: Tokens, big: Tokens, log: seq<Entry<Posting>>)
    requires Within(ts, big) && Rewind(ts, log).Ok?
    ensures Rewind(big, log).Ok? && Within(Rewind(ts, log).value, Rewind(big, log).value)
    decreases |log|
  {
    hide Undo, Within;
    if log != [] {
      UndoWithin(ts, big, log[|log| - 1].row);
      RewindWithin(Undo(ts, log[|log| - 1].row).value, Undo(big, log[|log| - 1].row).value, log[..|log| - 1]);
    }
  }

  lemma BookWithin(s2: Book, s1: Book, f: Book, h: nat)
    requires BookTracks(s2, s1, h) && f.log == s1.log && Within(s1.tokens, f.tokens)
    ensures BookTracks(s2, f, h)
  {
    RewindWithin(s1.tokens, f.tokens, Late(s2.log, s1.log));
  }

  lemma InfosForked(early: map<string, Info>, infos: map<string, Info>, h2: nat, h1: nat)
    requires InfosTrack(early, infos, h2) && h2 <= h1
    ensures InfosTrack(early, KeptInfos(infos, h1), h2)
  {}

  lemma PoolsForked(early: map<PoolId, Pool>, pools: map<PoolId, Pool>, late: set<PoolId>, drc: Tokens, meme: Tokens)
    requires PoolsTrack(early, pools, late)
    ensures PoolsTrack(early, RefreshAll(drc, meme, pools), late)
  {}

  /** What comes out of a fork, exact or not, can be rolled back to anything its input could. */
  lemma ForkTracks(s2: Database, s1: Database, d: Database, h2: nat, h1: nat)
    requires h2 <= h1 && Tracks(s1, d, h1) && Tracks(s2, s1, h2) && Tracks(s2, d, h2)
    ensures Fork(d, h1).Ok? && Tracks(s2, Fork(d, h1).value, h2)
  {
    ForkRestores(s1, d, h1);
    var f := Fork(d, h1).value;
    BookWithin(s2.drc20, s1.drc20, f.drc20, h2);
    InfosForked(s2.infos, d.infos, h2, h1);
    PoolsForked(s2.pools, s1.pools, Opened(Late(s2.poolLog, s1.poolLog)), f.drc20.tokens, f.meme20.tokens);
    ForkTyped(d, h1);
    hide Fork, BookTracks, InfosTrack, PoolsTrack, Extends, Born, RewindCurves, RewindStakes;
  }

  lemma ForkTyped(d: Database, h: nat)
    requires Fork(d, h).Ok? && Typed(d.drc20.tokens.Keys, d.meme20.tokens.Keys)
    ensures Typed(Fork(d, h).value.drc20.tokens.Keys, Fork(d, h).value.meme20.tokens.Keys)
  {
    RewindKeys(d.drc20.tokens, Above(d.drc20.log, h));
    RewindKeys(d.meme20.tokens, Above(d.meme20.log, h));
  }

  /** What comes out of a fork was written by the fork's height. */
  lemma ForkWritten(s: Database, d: Database, h: nat)
    requires Tracks(s, d, h) && WrittenBy(s, h)
    ensures Fork(d, h).Ok? && WrittenBy(Fork(d, h).value, h)
  {
    ForkRestores(s, d, h);
    ForkTyped(d, h);
    hide Fork, BookTracks, InfosTrack, PoolsTrack, Extends, Born, RewindCurves, RewindStakes;
  }

  // ---------------------------------------------------------------------------------------------------------------
  // What a fork keeps
  // ---------------------------------------------------------------------------------------------------------------

  lemma ForkConserves(d: Database, h: nat)
    requires ConservedAll(d) && Fork(d, h).Ok?
    ensures ConservedAll(Fork(d, h).value)
  {
    RewindConserves(d.drc20.tokens, Above(d.drc20.log, h));
    RewindConserves(d.meme20.tokens, Above(d.meme20.log, h));
    hide Rewind, Above, Upto, RewindCurves, RewindStakes, RefreshAll, KeptInfos;
  }

  lemma RestoredBalances(s: Database, d: Database, h: nat, t: Tick, a: Address)
    requires Tracks(s, d, h)
    ensures Fork(d, h).Ok?
    ensures Bal(Fork(d, h).value, t, a) >= Bal(s, t, a)
    ensures t in BookOf(s, t).tokens ==>
              && t in BookOf(Fork(d, h).value, t).tokens
              && Bal(Fork(d, h).value, t, a) == Bal(s, t, a)
              && Issued(Fork(d, h).value, t) == Issued(s, t)
  {
    ForkRestores(s, d, h);
    hide Fork, Tracks;
  }

  lemma MoreIsSound(p: Shape, q: Shape)
    requires Sound(p) && p.total == q.total && p.r0 <= q.r0 && p.r1 <= q.r1
    ensures Sound(q)
  {
    ProductMono(p.r0, q.r0, p.r1, q.r1);
  }

  lemma ForkPool(s: Database, d: Database, h: nat, id: PoolId)
    requires Tracks(s, d, h) && PoolInv(s, id)
    ensures Fork(d, h).Ok?
    ensures PoolInv(Fork(d, h).value, id) && PoolAgrees(Fork(d, h).value, id)
  {
    ForkRestores(s, d, h);
    var f := Fork(d, h).value;
    hide Fork, Tracks, Sound, Bal, Issued;
    if id in f.pools {
      var p, q := s.pools[id], f.pools[id];
      RestoredBalances(s, d, h, p.tick0, Reserves(id));
      RestoredBalances(s, d, h, p.tick1, Reserves(id));
      RestoredBalances(s, d, h, LpTick(id), Reserves(id));
      RefreshedIs(f, id, p);
      MoreIsSound(ShapeOf(p), ShapeOf(q));
      RefreshedRow(f, id, p.tick0, p.tick1);
    }
  }

  lemma RefreshedIs(d: Database, id: PoolId, p: Pool)
    ensures Refreshed(d.drc20.tokens, d.meme20.tokens, id, p) ==
            Pool(p.tick0, p.tick1, Bal(d, p.tick0, Reserves(id)), Bal(d, p.tick1, Reserves(id)), Issued(d, LpTick(id)))
  {}

  /** After a fork every pool is sound and every cache equals the ledger, even where tokens had been sent to a reserves
      address directly. */
  lemma ForkSafe(s: Database, d: Database, h: nat)
    requires Tracks(s, d, h) && Safe(s) && ConservedAll(d)
    ensures Fork(d, h).Ok?
    ensures Safe(Fork(d, h).value) && Agreed(Fork(d, h).value)
  {
    ForkRestores(s, d, h);
    ForkConserves(d, h);
    hide Fork, Tracks, PoolInv, PoolAgrees;
    forall id
      ensures PoolInv(Fork(d, h).value, id) && PoolAgrees(Fork(d, h).value, id)
    {
      ForkPool(s, d, h, id);
    }
  }

  /** After a fork every curve is backed as it was. */
  lemma ForkCurve(s: Database, d: Database, h: nat, id: string)
    requires Tracks(s, d, h) && CurveInv(s, id) && WDOGE in s.drc20.tokens
    ensures Fork(d, h).Ok?
    ensures Fork(d, h).value.curves == s.curves && CurveInv(Fork(d, h).value, id)
  {
    ForkRestores(s, d, h);
    RestoredBalances(s, d, h, WDOGE, PumpReserves(id));
    RestoredBalances(s, d, h, Meme(id), PumpReserves(id));
    hide Fork, Tracks, Bal, Issued;
  }
}
