/** Every history of the indexer: any interleaving of blocks, half-finished blocks taken up again, and forks to any
    recorded height, exact or not; and what holds between two states of it with no fork between them. */
module Histories {
  import opened Results
  import opened Names
  import opened Ledger
  import opened Db
  import opened Pump
  import opened Execute
  import opened Rollback
  import opened ForkLaws
  import opened Dispatching
  import opened Effects
  import opened PoolSafety
  import opened OrderSafety
  import opened RunSafety
  import opened PumpSafety
  import opened PumpRuns
  import opened Escrows
  import opened SupplyCap
  import opened Reorg

  /** `Again` executes transactions at the height already reached: a block scanned once more after an interruption or a
      fork, or what replaced it meanwhile. */
  datatype Event = Block(txs: seq<Tx>) | Again(txs: seq<Tx>) | Back(height: nat)

  function Last(states: seq<Database>): Database
    requires states != []
  {
    states[|states| - 1]
  }

  /** A fork to a height that is not on record is never asked for. */
  function Happen(start: nat, states: seq<Database>, e: Event): Result<seq<Database>>
    requires states != []
  {
    match e
    case Block(txs) => Ok(states + [ExecuteAll(Last(states), txs, start + |states|)])
    case Again(txs) =>
      Ok(states[..|states| - 1] + [ExecuteAll(Last(states), txs, start + |states| - 1)])
    case Back(h) =>
      if h < start || h >= start + |states| then Ok(states)
      else
        var f :- Fork(Last(states), h);
        Ok(states[..h - start] + [f])
  }

  function Unfold(start: nat, states: seq<Database>, events: seq<Event>): Result<seq<Database>>
    requires states != []
    decreases |events|
  {
    if events == [] then Ok(states)
    else
      var next :- Happen(start, states, events[0]);
      assert next != [];
      Unfold(start, next, events[1..])
  }

  /** Both ledgers conserved, every pool sound with its minimum liquidity, no user tick over its maximum, every active
      consensus record backed by its escrow; with payments to users only, every curve backed as well. */
  ghost predicate Inv(d: Database, users: bool) {
    && Safe(d)
    && Capped(d)
    && (forall id :: EscrowInv(d, id))
    && (users ==> CurvesBacked(d))
  }

  ghost predicate CurvesBacked(d: Database) {
    InvitersTidy(d) && WDOGE in d.drc20.tokens && forall id :: CurveInv(d, id)
  }

  predicate PaysUsers(e: Event) {
    match e
    case Block(txs) => forall tx <- txs :: ToUsers(tx.op)
    case Again(txs) => forall tx <- txs :: ToUsers(tx.op)
    case Back(_) => true
  }

  ghost predicate Good(start: nat, states: seq<Database>, users: bool) {
    && states != []
    && (forall i | 0 <= i < |states| :: Inv(states[i], users) && WrittenBy(states[i], start + i))
    && (forall i, j | 0 <= i <= j < |states| :: Tracks(states[i], states[j], start + i))
  }

  // ---------------------------------------------------------------------------------------------------------------
  // Blocks
  // ---------------------------------------------------------------------------------------------------------------

  lemma {:induction false} ExecuteAllTicks(d: Database, txs: seq<Tx>, height: nat)
    ensures d.drc20.tokens.Keys <= ExecuteAll(d, txs, height).drc20.tokens.Keys
    decreases |txs|
  {
    hide Dispatch;
    if txs != [] {
      var tx := txs[0];
      if tx.hash !in d.infos {
        var script := DispatchIsRun(Recorded(d, tx, height), tx, height);
        RunKeeps(Recorded(d, tx, height), script, height);
      }
      ExecuteAllTicks(ExecuteTx(d, tx, height), txs[1..], height);
    }
  }

  lemma BlockBacks(d: Database, txs: seq<Tx>, height: nat)
    requires Safe(d) && CurvesBacked(d) && forall tx <- txs :: ToUsers(tx.op)
    ensures CurvesBacked(ExecuteAll(d, txs, height))
  {
    hide Safe, InvitersTidy, CurveInv, CurveKept, ExecuteAll;
    BlockCurves(d, txs, height);
    ExecuteAllTicks(d, txs, height);
  }

  lemma BlockInv(d: Database, txs: seq<Tx>, height: nat, users: bool)
    requires Inv(d, users) && (users ==> forall tx <- txs :: ToUsers(tx.op))
    ensures Inv(ExecuteAll(d, txs, height), users)
  {
    hide Safe, Capped, CurvesBacked, ExecuteAll, EscrowInv, Keeps;
    BlockSafe(d, txs, height, false);
    KeepsSafe(d, ExecuteAll(d, txs, height), false);
    BlockCaps(d, txs, height);
    forall id
      ensures EscrowInv(ExecuteAll(d, txs, height), id)
    {
      BlockEscrows(d, txs, height, id);
      EscrowOf(d, ExecuteAll(d, txs, height), id);
    }
    if users {
      BlockBacks(d, txs, height);
    }
  }

  lemma EscrowOf(d: Database, d': Database, id: string)
    requires EscrowKeeps(d, d', id)
    ensures EscrowInv(d', id)
  {}

  /** A later state appended to, or put in place of the last of, a good sequence. */
  lemma Appended(start: nat, states: seq<Database>, d: Database, users: bool)
    requires states == [] || Good(start, states, users)
    requires Inv(d, users) && WrittenBy(d, start + |states|)
    requires forall i | 0 <= i < |states| :: Tracks(states[i], d, start + i)
    ensures Good(start, states + [d], users)
  {
    hide Inv, WrittenBy, Tracks;
    assert Tracks(d, d, start + |states|) by { TracksSelf(d, start + |states|); }
  }

  lemma Prefix(start: nat, states: seq<Database>, n: nat, users: bool)
    requires Good(start, states, users) && 0 < n <= |states|
    ensures Good(start, states[..n], users)
  {
    hide Inv, WrittenBy, Tracks;
  }

  lemma BlockGood(start: nat, states: seq<Database>, txs: seq<Tx>, users: bool)
    requires Good(start, states, users) && (users ==> forall tx <- txs :: ToUsers(tx.op))
    ensures Good(start, states + [ExecuteAll(Last(states), txs, start + |states|)], users)
  {
    hide Inv, WrittenBy, Tracks, ExecuteAll;
    var d, height := Last(states), start + |states|;
    BlockInv(d, txs, height, users);
    WrittenLater(d, height - 1, height);
    ExecuteAllWritten(d, txs, height);
    forall i | 0 <= i < |states|
      ensures Tracks(states[i], ExecuteAll(d, txs, height), start + i)
    {
      ExecuteAllTracks(states[i], d, txs, height, start + i);
    }
    Appended(start, states, ExecuteAll(d, txs, height), users);
  }

  lemma AgainGood(start: nat, states: seq<Database>, txs: seq<Tx>, users: bool)
    requires Good(start, states, users) && (users ==> forall tx <- txs :: ToUsers(tx.op))
    ensures Good(start, states[..|states| - 1] + [ExecuteAll(Last(states), txs, start + |states| - 1)], users)
  {
    hide Inv, WrittenBy, Tracks, ExecuteAll;
    var d, height, before := Last(states), start + |states| - 1, states[..|states| - 1];
    BlockInv(d, txs, height, users);
    ExecuteAllWritten(d, txs, height);
    forall i | 0 <= i < |before|
      ensures Tracks(before[i], ExecuteAll(d, txs, height), start + i)
    {
      ExecuteAllTracks(states[i], d, txs, height, start + i);
    }
    if before != [] {
      Prefix(start, states, |states| - 1, users);
    }
    Appended(start, before, ExecuteAll(d, txs, height), users);
  }

  // ---------------------------------------------------------------------------------------------------------------
  // Forks
  // ---------------------------------------------------------------------------------------------------------------

  lemma ForkBacks(s: Database, d: Database, h: nat)
    requires Tracks(s, d, h) && CurvesBacked(s)
    ensures Fork(d, h).Ok? && CurvesBacked(Fork(d, h).value)
  {
    ForkRestores(s, d, h);
    hide Fork, Tracks, CurveInv;
    forall id
      ensures CurveInv(Fork(d, h).value, id)
    {
      ForkCurve(s, d, h, id);
    }
  }

  lemma ForkInv(s: Database, d: Database, h: nat, users: bool)
    requires Tracks(s, d, h) && Inv(s, users) && Inv(d, users)
    ensures Fork(d, h).Ok? && Inv(Fork(d, h).value, users) && Agreed(Fork(d, h).value)
  {
    hide Fork, Tracks, PoolInv, Capped, EscrowInv, CurvesBacked, Conserved;
    ForkSafe(s, d, h);
    ForkCaps(d, h);
    forall id
      ensures EscrowInv(Fork(d, h).value, id)
    {
      ForkEscrow(s, d, h, id);
    }
    if users {
      ForkBacks(s, d, h);
    }
  }

  lemma BackGood(start: nat, states: seq<Database>, h: nat, users: bool)
    requires Good(start, states, users) && start <= h < start + |states|
    ensures Fork(Last(states), h).Ok?
    ensures Good(start, states[..h - start] + [Fork(Last(states), h).value], users)
    ensures Agreed(Fork(Last(states), h).value)
  {
    hide Inv, WrittenBy, Tracks, Fork, Agreed;
    var d, n := Last(states), h - start;
    var s := states[n];
    ForkInv(s, d, h, users);
    var f := Fork(d, h).value;
    ForkWritten(s, d, h);
    forall i | 0 <= i < n
      ensures Tracks(states[i], f, start + i)
    {
      ForkTracks(states[i], s, d, start + i, h);
    }
    if n > 0 {
      Prefix(start, states, n, users);
    }
    Appended(start, states[..n], f, users);
  }

  // ---------------------------------------------------------------------------------------------------------------
  // Every history
  // ---------------------------------------------------------------------------------------------------------------

  lemma HappenGood(start: nat, states: seq<Database>, e: Event, users: bool)
    requires states != [] && Good(start, states, users) && (users ==> PaysUsers(e))
    ensures Happen(start, states, e).Ok? && Happen(start, states, e).value != []
    ensures Good(start, Happen(start, states, e).value, users)
  {
    hide Good, Fork, ExecuteAll, Agreed, Inv;
    match e
    case Block(txs) => BlockGood(start, states, txs, users);
    case Again(txs) => AgainGood(start, states, txs, users);
    case Back(h) =>
      if start <= h < start + |states| {
        BackGood(start, states, h, users);
      }
  }

  lemma {:induction false} UnfoldGood(start: nat, states: seq<Database>, events: seq<Event>, users: bool)
    requires states != [] && Good(start, states, users) && (users ==> forall e <- events :: PaysUsers(e))
    ensures Unfold(start, states, events).Ok? && Unfold(start, states, events).value != []
    ensures Good(start, Unfold(start, states, events).value, users)
    decreases |events|
  {
    hide Good, Happen, PaysUsers;
    if events != [] {
      HappenGood(start, states, events[0], users);
      UnfoldGood(start, Happen(start, states, events[0]).value, events[1..], users);
    }
  }

  /** In every history no fork ever gets stuck, and every state it goes through keeps the invariant: whatever was
      deployed, staked, sent or left half done in between, and however deep the forks went. */
  lemma EveryHistory(base: Database, start: nat, events: seq<Event>, users: bool)
    requires Inv(base, users) && WrittenBy(base, start) && (users ==> forall e <- events :: PaysUsers(e))
    ensures Unfold(start, [base], events).Ok?
    ensures var states := Unfold(start, [base], events).value;
            states != [] && Inv(Last(states), users)
  {
    hide Inv, WrittenBy;
    Appended(start, [], base, users);
    assert [] + [base] == [base];
    UnfoldGood(start, [base], events, users);
  }

  // ---------------------------------------------------------------------------------------------------------------
  // Stretches without a fork
  // ---------------------------------------------------------------------------------------------------------------

  /** The blocks of a stretch of events that holds no fork; `height` is the height reached before it. */
  function StagesAhead(height: nat, events: seq<Event>): seq<Stage>
    decreases |events|
  {
    if events == [] then []
    else
      match events[0]
      case Block(txs) => [Stage(txs, height + 1)] + StagesAhead(height + 1, events[1..])
      case Again(txs) => [Stage(txs, height)] + StagesAhead(height, events[1..])
      case Back(_) => StagesAhead(height, events[1..])
  }

  lemma {:induction false} UnfoldAppend(start: nat, states: seq<Database>, a: seq<Event>, b: seq<Event>)
    requires states != [] && Unfold(start, states, a).Ok? && Unfold(start, states, a).value != []
    ensures Unfold(start, states, a + b) == Unfold(start, Unfold(start, states, a).value, b)
    decreases |a|
  {
    hide Happen;
    if a == [] {
      assert a + b == b;
    } else {
      assert (a + b)[0] == a[0] && (a + b)[1..] == a[1..] + b;
      HappenSome(start, states, a[0]);
      UnfoldAppend(start, Happen(start, states, a[0]).value, a[1..], b);
    }
  }

  lemma HappenSome(start: nat, states: seq<Database>, e: Event)
    requires states != [] && Happen(start, states, e).Ok?
    ensures Happen(start, states, e).value != []
  {}

  lemma AdvanceNext(d: Database, s: Stage, rest: seq<Stage>)
    ensures Advance(d, [s] + rest) == Advance(ExecuteAll(d, s.txs, s.height), rest)
  {
    hide ExecuteAll;
    assert ([s] + rest)[1..] == rest;
  }

  /** One event that is not a fork is one stage. */
  lemma HappenForward(start: nat, states: seq<Database>, e: Event)
    requires states != [] && !e.Back?
    ensures var r, height := Happen(start, states, e), start + |states| - 1;
            && r.Ok? && r.value != []
            && |r.value| == (if e.Block? then |states| + 1 else |states|)
            && Last(r.value) == ExecuteAll(Last(states), e.txs, if e.Block? then height + 1 else height)
  {
    hide ExecuteAll;
  }

  /** Without a fork a stretch of events advances the last state by its blocks. */
  lemma {:induction false} ForwardAdvances(start: nat, states: seq<Database>, events: seq<Event>)
    requires states != [] && forall e <- events :: !e.Back?
    ensures var r := Unfold(start, states, events);
            && r.Ok? && r.value != []
            && Last(r.value) == Advance(Last(states), StagesAhead(start + |states| - 1, events))
    decreases |events|
  {
    hide ExecuteAll, Advance, Happen, Last;
    if events == [] {
      AdvanceNone(Last(states));
    } else {
      var e, height := events[0], start + |states| - 1;
      HappenForward(start, states, e);
      var reached := if e.Block? then height + 1 else height;
      ForwardAdvances(start, Happen(start, states, e).value, events[1..]);
      AdvanceNext(Last(states), Stage(e.txs, reached), StagesAhead(reached, events[1..]));
    }
  }

  lemma AdvanceNone(d: Database)
    ensures Advance(d, []) == d
  {}

  lemma {:induction false} StagesPayUsers(height: nat, events: seq<Event>)
    requires forall e <- events :: PaysUsers(e) && !e.Back?
    ensures forall s <- StagesAhead(height, events), tx <- s.txs :: ToUsers(tx.op)
    decreases |events|
  {
    hide ToUsers;
    if events != [] {
      assert PaysUsers(events[0]);
      var rest := StagesAhead(if events[0].Block? then height + 1 else height, events[1..]);
      StagesPayUsers(if events[0].Block? then height + 1 else height, events[1..]);
      assert StagesAhead(height, events)[1..] == rest;
      assert forall s <- StagesAhead(height, events) :: s == StagesAhead(height, events)[0] || s in rest;
    }
  }

  /** What holds from a state to any later one with no fork between: no pool is diluted, every record keeps its stake
      until its one release, and, with payments to users only, no curve loses product or re-opens. */
  ghost predicate Onward(d: Database, d': Database, users: bool) {
    && Undiluted(d, d')
    && (forall id :: EscrowKept(d, d', id))
    && (users ==> forall id :: CurveKept(d, d', id))
  }

  lemma StagesOnward(d: Database, stages: seq<Stage>, users: bool)
    requires Inv(d, users) && (users ==> forall s <- stages, tx <- s.txs :: ToUsers(tx.op))
    ensures Onward(d, Advance(d, stages), users)
  {
    hide Advance, CurveInv, EscrowInv, CurveKept, EscrowKept, Capped, Safe, ToUsers, InvitersTidy, Undiluted;
    StagesSafe(d, stages, false);
    forall id
      ensures EscrowKept(d, Advance(d, stages), id)
    {
      StagesEscrows(d, stages, id);
    }
    if users {
      StagesCurves(d, stages);
    }
  }

  /** In every history, whatever happened before (`before`, forks included), the relations between earlier and later
      states hold over every stretch without a fork (`ahead`). */
  lemma EveryStretch(base: Database, start: nat, before: seq<Event>, ahead: seq<Event>, users: bool)
    requires Inv(base, users) && WrittenBy(base, start)
    requires (forall e <- ahead :: !e.Back?) && (users ==> forall e <- before + ahead :: PaysUsers(e))
    ensures Unfold(start, [base], before).Ok? && Unfold(start, [base], before + ahead).Ok?
    ensures var s, t := Unfold(start, [base], before).value, Unfold(start, [base], before + ahead).value;
            && s != [] && t != [] && Onward(Last(s), Last(t), users)
  {
    hide Inv, WrittenBy, Onward, Unfold, PaysUsers, Advance;
    assert users ==> (forall e <- before :: PaysUsers(e)) && forall e <- ahead :: PaysUsers(e) by {
      assert (forall e <- before :: e in before + ahead) && forall e <- ahead :: e in before + ahead;
    }
    EveryHistory(base, start, before, users);
    var s := Unfold(start, [base], before).value;
    UnfoldAppend(start, [base], before, ahead);
    ForwardAdvances(start, s, ahead);
    if users {
      StagesPayUsers(start + |s| - 1, ahead);
    }
    StagesOnward(Last(s), StagesAhead(start + |s| - 1, ahead), users);
  }

  ghost predicate ChainPaysUsers(b: Header) {
    && (forall tx <- b.txs :: ToUsers(tx.op))
    && (b.Link? ==> ChainPaysUsers(b.prev))
  }

  lemma {:induction false} ReplayInv(base: Database, rooted: bool, b: Header, users: bool)
    requires Inv(base, users) && (users ==> ChainPaysUsers(b))
    ensures Inv(Replay(base, rooted, b), users)
  {
    hide Inv, ExecuteAll, ToUsers;
    match b
    case First(h, txs, _) =>
      BlockInv(base, txs, h, users);
    case Link(p, txs, _) =>
      ReplayInv(base, rooted, p, users);
      BlockInv(Replay(base, rooted, p), txs, Height(b), users);
  }

  lemma {:induction false} ChainStages(b: Header, c: nat)
    requires FirstOf(b).height <= c <= Height(b) && ChainPaysUsers(b)
    ensures ChainPaysUsers(Ancestor(b, c))
    ensures forall s <- StagesOf(b, c), tx <- s.txs :: ToUsers(tx.op)
  {
    hide ToUsers;
    if c != Height(b) {
      ChainStages(b.prev, c);
    }
  }

  /** The same between any two blocks of any chain. */
  lemma ChainOnward(base: Database, rooted: bool, b: Header, c: nat, users: bool)
    requires Inv(base, users) && FirstOf(b).height <= c <= Height(b) && (users ==> ChainPaysUsers(b))
    ensures Onward(Replay(base, rooted, Ancestor(b, c)), Replay(base, rooted, b), users)
  {
    hide Inv, Onward, Replay, Advance, ToUsers;
    if users {
      ChainStages(b, c);
    }
    ReplayInv(base, rooted, Ancestor(b, c), users);
    ReplayAdvances(base, rooted, b, c);
    StagesOnward(Replay(base, rooted, Ancestor(b, c)), StagesOf(b, c), users);
  }

  /** A fork ends such a stretch: one to below the trade that left a curve stuck gives the curve its earlier row back,
      and the next block accepts trades on it. */
  lemma ForkReopens(s: Database, d: Database, h: nat, id: string, trader: Signer, amt: nat)
    requires Tracks(s, d, h) && id in s.curves && s.curves[id].amt1 < CLOSED_AT && amt >= 1
    ensures Fork(d, h).Ok?
    ensures var f := Fork(d, h).value;
            && id in f.curves && f.curves[id] == s.curves[id]
            && TradeVerified(f, trader, id, WDOGE, amt, h + 1) && TradeVerified(f, trader, id, Meme(id), amt, h + 1)
  {
    hide Tracks, Fork;
    ForkRestores(s, d, h);
  }

  /** The tables before the first block: WDOGE is there, nothing else is. */
  function Fresh(max: nat): Database {
    Database(Book(map[WDOGE := Token(0, max, max, multiset{})], []), Book(map[], []), map[], [], map[], [], map[], [],
             map[], map[])
  }

  /** A fresh database is a start that every theorem accepts. */
  lemma FreshStart(max: nat, start: nat)
    ensures Inv(Fresh(max), true) && WrittenBy(Fresh(max), start) && Fit(Fresh(max), start) && Pumping(Fresh(max))
  {
    var d := Fresh(max);
    assert forall id :: PoolInv(d, id) && PoolAgrees(d, id);
    assert forall id :: CurveInv(d, id) && EscrowInv(d, id);
  }
}
