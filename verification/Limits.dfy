/** Inputs at which the theorems' conditions fail: one for each condition of `Reorg.Restorable`, a cache left behind by
    a direct payment, a half-executed block that is replaced, and a curve that ends between the two marks. */
module Limits {
  import opened Results
  import opened Names
  import opened Ledger
  import opened Db
  import opened Quotes
  import opened Swap
  import opened Pump
  import opened Execute
  import opened Dispatching
  import opened Rollback
  import opened Effects
  import opened PoolSafety
  import opened OrderSafety
  import opened RunSafety
  import opened PumpSafety
  import opened Graduation
  import opened PumpRuns
  import opened Trades
  import opened Traders
  import opened Receipts
  import opened Reorg
  import opened Histories

  const USER: Signer := User("u")

  /** A database with the given drc-20 tokens and nothing else. */
  function Only(tokens: Tokens): Database {
    Database(Book(tokens, []), Book(map[], []), map[], [], map[], [], map[], [], map[], map[])
  }

  function Deploying(hash: string, max: nat): Tx {
    Tx(hash, USER, DeployOp("ABCD", max, 5))
  }

  lemma DeployRuns(hash: string, max: nat)
    requires 5 <= max <= 100
    ensures ExecuteAll(Only(map[]), [Deploying(hash, max)], 1) ==
            Only(map[Drc("ABCD") := Token(0, max, 5, multiset{})]).(infos := map[hash := Info(Drc20, 1, USER, false)])
  {
    var tx := Deploying(hash, max);
    var r := Recorded(Only(map[]), tx, 1);
    var script := [DeployTick(Drc("ABCD"), max, 5)];
    assert SimpleScript(r, tx, 1) == Ok(script);
    assert Run(r, script, 1) == Apply(r, script[0], 1);
    assert [tx][1..] == [];
  }

  /** A deploy leaves no revert row. When its block is replaced by one that deploys the same symbol with another
      maximum, the first maximum stays in force; indexing the new chain from scratch gives the second. */
  lemma DeploySurvivesFork()
    ensures var first := First(0, [], 0);
            var old_, new_ := Link(first, [Deploying("a", 10)], 0), Link(first, [Deploying("b", 20)], 0);
            var base := Only(map[]);
            var f := Fork(Replay(base, false, old_), 0);
            && f.Ok? && f != Ok(Replay(base, false, first))
            && var scanned, scratch := ExecuteAll(f.value, new_.txs, 1), Replay(base, false, new_);
               && Drc("ABCD") in scanned.drc20.tokens && scanned.drc20.tokens[Drc("ABCD")].max == 10
               && Drc("ABCD") in scratch.drc20.tokens && scratch.drc20.tokens[Drc("ABCD")].max == 20
  {
    DeployRuns("a", 10);
    DeployRuns("b", 20);
    var tokens := map[Drc("ABCD") := Token(0, 10, 5, multiset{})];
    FlatFork(tokens, map["a" := Info(Drc20, 1, USER, false)]);
    DeployAgain(tokens, Deploying("b", 20));
    ReplayOne(Only(map[]), [Deploying("a", 10)], 0);
    ReplayOne(Only(map[]), [Deploying("b", 20)], 0);
    hide Fork, ExecuteAll, Replay;
    assert Drc("ABCD") in Only(tokens).drc20.tokens && Drc("ABCD") !in Only(map[]).drc20.tokens;
  }

  lemma ReplayOne(base: Database, txs: seq<Tx>, salt: nat)
    ensures Replay(base, false, Link(First(0, [], 0), txs, salt)) == ExecuteAll(base, txs, 1)
    ensures Replay(base, false, First(0, [], 0)) == base
    ensures Ancestor(Link(First(0, [], 0), txs, salt), 0) == First(0, [], 0)
  {
    hide ExecuteAll;
    var first := First(0, [], 0);
    var b := Link(first, txs, salt);
    assert Replay(base, false, first) == base;
    assert Height(first) == 0 && Height(b) == 1;
    assert Replay(base, false, b) == ExecuteAll(Replay(base, false, first), txs, 1);
  }

  lemma FlatFork(tokens: Tokens, infos: map<string, Info>)
    requires forall k <- infos :: infos[k].height > 0 && infos[k].protocol != Consensus
    ensures Fork(Only(tokens).(infos := infos), 0) == Ok(Only(tokens))
  {
    assert KeptInfos(infos, 0) == map[];
    assert LpTicks(Opened([])) == {} && CurveTicks([]) == {};
    assert tokens - {} == tokens;
    var none: Tokens := map[];
    assert none - {} - {} == none;
    var pools: map<PoolId, Pool> := map[];
    assert RefreshAll(tokens, none, pools - {}) == pools;
  }

  lemma DeployAgain(tokens: Tokens, tx: Tx)
    requires tx == Deploying("b", 20) && Drc("ABCD") in tokens
    ensures ExecuteAll(Only(tokens), [tx], 1).drc20.tokens == tokens
  {
    var r := Recorded(Only(tokens), tx, 1);
    var script := [DeployTick(Drc("ABCD"), 20, 5)];
    assert [tx][1..] == [];
    assert SimpleScript(r, tx, 1) == Ok(script);
    assert Apply(r, script[0], 1) == Failed;
  }

  const CARDS := map[CARDI := Token(5, 5, 5, multiset{}[USER := 5])]
  const STAKE := Tx("s", USER, StakeOp(5))

  lemma StakeRuns()
    ensures var d := ExecuteAll(Only(CARDS), [STAKE], 1);
            && d.infos == map["s" := Info(Consensus, 1, USER, false)]
            && d.stakes == map["s" := Stake(USER, 5, 1, Active)]
            && Bal(d, CARDI, Escrow("s")) == 5
  {
    hide Transfer;
    var r := Recorded(Only(CARDS), STAKE, 1);
    var script := StakeScript("s", USER, 5);
    assert [STAKE][1..] == [];
    var mid := Apply(r, script[0], 1).value;
    assert script[1..] == [script[1]];
    assert Run(mid, [script[1]], 1) == Apply(mid, script[1], 1) by {
      assert [script[1]][1..] == [];
    }
    TransferOf5(mid.drc20.tokens);
  }

  lemma TransferOf5(ts: Tokens)
    requires ts == CARDS
    ensures Transfer(ts, CARDI, USER, Escrow("s"), 5).Ok?
    ensures Balance(Transfer(ts, CARDI, USER, Escrow("s"), 5).value, CARDI, Escrow("s")) == 5
  {}

  lemma KeepsConsensus(infos: map<string, Info>)
    ensures forall k <- infos :: infos[k].protocol == Consensus ==> k in KeptInfos(infos, 0)
  {}

  lemma StakeForked()
    ensures var f := Fork(ExecuteAll(Only(CARDS), [STAKE], 1), 0);
            && f.Ok?
            && "s" in f.value.infos
            && Bal(f.value, CARDI, Escrow("s")) == 0
  {
    hide ExecuteAll, Fork, Tracks, Replay, Ancestor, Orphans, KeptInfos, RefreshAll;
    StakeRuns();
    var base := Only(CARDS);
    var d := ExecuteAll(base, [STAKE], 1);
    ReplayTracks(base, false, Link(First(0, [], 0), [STAKE], 0), 0);
    ReplayOne(base, [STAKE], 0);
    KeepsConsensus(d.infos);
    ForkRestores(base, d, 0);
  }

  /** The info rows of consensus transactions are not cut. When a stake's block is replaced by another one holding the
      same transaction, the transaction counts as done and is skipped: nothing is staked. */
  lemma StakeLostByFork()
    ensures var first := First(0, [], 0);
            var old_, new_ := Link(first, [STAKE], 0), Link(first, [STAKE], 1);
            var base := Only(CARDS);
            var f := Fork(Replay(base, false, old_), 0);
            && f.Ok?
            && Bal(ExecuteAll(f.value, new_.txs, 1), CARDI, Escrow("s")) == 0
            && Bal(Replay(base, false, new_), CARDI, Escrow("s")) == 5
  {
    hide ExecuteAll, Fork, Replay, Bal;
    StakeRuns();
    StakeForked();
    ReplayOne(Only(CARDS), [STAKE], 0);
    ReplayOne(Only(CARDS), [STAKE], 1);
    AllSkipped(Fork(ExecuteAll(Only(CARDS), [STAKE], 1), 0).value, [STAKE], 1);
  }

  // ---------------------------------------------------------------------------------------------------------------
  // A payment straight to a pool
  // ---------------------------------------------------------------------------------------------------------------

  lemma ForkHere(d: Database, height: nat)
    requires WrittenBy(d, height)
    ensures Fork(d, height).Ok?
    ensures Fork(d, height).value.pools == RefreshAll(d.drc20.tokens, d.meme20.tokens, d.pools)
  {
    TracksSelf(d, height);
    ForkRestores(d, d, height);
    hide Fork, Tracks, RefreshAll;
    assert Orphans(d, d) == {};
    SameTokens(d.drc20.tokens, Fork(d, height).value.drc20.tokens);
  }

  /** A payment straight to a reserves address is seen by the ledger only; a fork right after it, which undoes nothing,
      makes the pool's cache see it as well. */
  lemma GiftChangesPool(d: Database, id: PoolId, from: Party, amt: nat, height: nat)
    requires id in d.pools && PoolAgrees(d, id) && WrittenBy(d, height)
    requires Apply(d, Move(d.pools[id].tick0, from, Reserves(id), amt), height).Ok?
    ensures var d' := Apply(d, Move(d.pools[id].tick0, from, Reserves(id), amt), height).value;
            && !CachesAgree(d') && id in d'.pools
            && Fork(d', height).Ok? && id in Fork(d', height).value.pools
            && Fork(d', height).value.pools[id].amt0 == d'.pools[id].amt0 + amt > d'.pools[id].amt0
  {
    var s := Move(d.pools[id].tick0, from, Reserves(id), amt);
    var d' := Apply(d, s, height).value;
    StepEffect(d, s, height, s.tick, Reserves(id));
    MoveNeeds(d, s, height);
    StepPools(d, s, height, id);
    LedgerWritten(d, s, height);
    ForkHere(d', height);
    hide Apply, Fork;
    assert d'.pools[id].amt0 < Bal(d', s.tick, Reserves(id));
    assert RefreshAll(d'.drc20.tokens, d'.meme20.tokens, d'.pools)[id] != d'.pools[id];
  }

  const GIVER: Signer := User("g")
  const TOKEN0 := Drc("AAAA")
  const TOKEN1 := Drc("BBBB")
  const PAIR := V1(TOKEN0, TOKEN1)
  const HELD0: multiset<Address> := multiset{}[USER := 1000][GIVER := 10000][Reserves(PAIR) := 10000]
  const HELD1: multiset<Address> := multiset{}[Reserves(PAIR) := 10000]
  const SHARES: multiset<Address> := multiset{}[USER := 9000][Reserves(PAIR) := 1000]

  /** A v1 pool of 10000 against 10000, its cache in agreement. */
  function Level(): Database {
    Only(map[TOKEN0 := Token(21000, 21000, 1, HELD0),
             TOKEN1 := Token(10000, 10000, 1, HELD1),
             LpTick(PAIR) := Token(10000, MAX_NUMBER, 0, SHARES)]).(
      pools := map[PAIR := Pool(TOKEN0, TOKEN1, 10000, 10000, 10000)])
  }

  /** 10000 of the first token, from somebody else, straight to the pool. */
  const GIFT := Tx("gift", GIVER, TransferOp(TOKEN0, Reserves(PAIR), 10000))

  lemma LevelSafe()
    ensures Safe(Level()) && PoolAgrees(Level(), PAIR) && WrittenBy(Level(), 1)
    ensures Bal(Level(), TOKEN0, GIVER) == 10000 && Bal(Level(), TOKEN0, USER) == 1000
    ensures Bal(Level(), TOKEN1, USER) == 0
    ensures Bal(Level(), TOKEN0, Reserves(PAIR)) == 10000 && Bal(Level(), TOKEN1, Reserves(PAIR)) == 10000
  {
    var d := Level();
    assert |HELD0| == 21000 && |HELD1| == 10000 && |SHARES| == 10000;
    assert TOKEN0 != TOKEN1 && USER != GIVER;
    assert PoolInv(d, PAIR);
    assert forall id :: id in d.pools ==> id == PAIR;
  }

  /** The state after the gift: a pool whose cache lags behind the ledger. */
  lemma GiftSeenByFork()
    ensures var d := ExecuteAll(Level(), [GIFT], 1);
            && Safe(d) && PAIR in d.pools && d.pools[PAIR] == Pool(TOKEN0, TOKEN1, 10000, 10000, 10000)
            && Bal(d, TOKEN0, Reserves(PAIR)) == 20000 && Bal(d, TOKEN1, Reserves(PAIR)) == 10000
            && Bal(d, TOKEN0, USER) == 1000 && Bal(d, TOKEN1, USER) == 0
            && d.infos.Keys == {"gift"}
            && Fork(d, 1).Ok? && PAIR in Fork(d, 1).value.pools && Fork(d, 1).value.pools[PAIR].amt0 == 20000
  {
    hide Level, Safe, Bal, PoolAgrees, Keeps, WrittenBy, Apply, Fork;
    LevelSafe();
    var r := Recorded(Level(), GIFT, 1);
    var s := Move(TOKEN0, GIVER, Reserves(PAIR), 10000);
    LevelRows();
    RecordedPair(r);
    assert [GIFT][1..] == [] && [s][1..] == [];
    assert SimpleScript(r, GIFT, 1) == Ok([s]);
    MoveGoes(r, TOKEN0, GIVER, Reserves(PAIR), 10000, 1);
    assert Run(r, [s], 1) == Apply(r, s, 1);
    var d := Apply(r, s, 1).value;
    BlockSafe(Level(), [GIFT], 1, false);
    KeepsSafe(Level(), ExecuteAll(Level(), [GIFT], 1), false);
    GiftChangesPool(r, PAIR, GIVER, 10000, 1);
    StepPools(r, s, 1, PAIR);
    StepKeeps(r, s, 1);
    GiftMoves(r, s, d);
  }

  lemma LevelRows()
    ensures Level().infos == map[] && PAIR in Level().pools
    ensures Level().pools[PAIR] == Pool(TOKEN0, TOKEN1, 10000, 10000, 10000)
  {}

  lemma RecordedPair(r: Database)
    requires r == Recorded(Level(), GIFT, 1)
    ensures PoolAgrees(r, PAIR) && WrittenBy(r, 1)
    ensures forall t, a :: Bal(r, t, a) == Bal(Level(), t, a)
  {
    hide Level, PoolAgrees;
    LevelSafe();
    SamePool(Level(), r, PAIR);
  }

  lemma GiftMoves(r: Database, s: Step, d: Database)
    requires s == Move(TOKEN0, GIVER, Reserves(PAIR), 10000) && Apply(r, s, 1) == Ok(d)
    ensures Bal(d, TOKEN0, Reserves(PAIR)) == Bal(r, TOKEN0, Reserves(PAIR)) + 10000
    ensures Bal(d, TOKEN1, Reserves(PAIR)) == Bal(r, TOKEN1, Reserves(PAIR))
    ensures Bal(d, TOKEN0, USER) == Bal(r, TOKEN0, USER) && Bal(d, TOKEN1, USER) == Bal(r, TOKEN1, USER)
  {
    hide Apply;
    assert USER != GIVER && TOKEN0 != TOKEN1;
    StepEffect(r, s, 1, TOKEN0, Reserves(PAIR));
    StepEffect(r, s, 1, TOKEN1, Reserves(PAIR));
    StepEffect(r, s, 1, TOKEN0, USER);
    StepEffect(r, s, 1, TOKEN1, USER);
  }

  const THERE := PairOrder(Exec(PAIR, TOKEN0, 1000, 0), false)
  const BACK := PairOrder(Exec(PAIR, TOKEN1, 906, 0), false)
  const ROUND_TRIP := Tx("swap", USER, PairV1Op([THERE, BACK]))

  /** One v1 swap by the user: what the four balances become. */
  lemma SwapOnce(d: Database, o: PairOrder, zero: bool, amt: nat, out: nat)
    requires Safe(d) && PAIR in d.pools && d.pools[PAIR].tick0 == TOKEN0 && d.pools[PAIR].tick1 == TOKEN1
    requires o == PairOrder(Exec(PAIR, if zero then TOKEN0 else TOKEN1, amt, 0), false) && amt >= 1
    requires out == ExecOut(d.pools[PAIR], zero, amt) && 1 <= out
    requires amt <= Bal(d, if zero then TOKEN0 else TOKEN1, USER)
    requires out <= Bal(d, if zero then TOKEN1 else TOKEN0, Reserves(PAIR))
    ensures RunOrder(d, "swap", USER, o, 2).Ok? && RunOrder(d, "swap", USER, o, 2).value.1 == 0
    ensures var m := RunOrder(d, "swap", USER, o, 2).value.0;
            var tickIn, tickOut := if zero then TOKEN0 else TOKEN1, if zero then TOKEN1 else TOKEN0;
            && Safe(m) && PAIR in m.pools
            && m.pools[PAIR] == Pool(TOKEN0, TOKEN1, Bal(m, TOKEN0, Reserves(PAIR)), Bal(m, TOKEN1, Reserves(PAIR)),
                                     m.pools[PAIR].total)
            && Bal(m, tickIn, Reserves(PAIR)) == Bal(d, tickIn, Reserves(PAIR)) + amt
            && Bal(m, tickOut, Reserves(PAIR)) == Bal(d, tickOut, Reserves(PAIR)) - out
            && Bal(m, tickIn, USER) == Bal(d, tickIn, USER) - amt
            && Bal(m, tickOut, USER) == Bal(d, tickOut, USER) + out
  {
    hide Safe, ExecOut, Bal, Issued, Exchanged, NoDilution, Total, SupplyTotal, Run;
    assert TOKEN0 != TOKEN1;
    ExecOutIs(d.pools[PAIR], zero, amt);
    SwapIff(d, "swap", USER, o, 2, out);
    SwapMoves(d, "swap", USER, o, 2);
    SwapFair(d, "swap", USER, o, 2, PAIR);
    var m := RunOrder(d, "swap", USER, o, 2).value.0;
    CacheIs(m);
    assert Exchanged(d, m, USER, PAIR, TOKEN0) && Exchanged(d, m, USER, PAIR, TOKEN1);
    SwapIssues(d, "swap", USER, o, 2, TOKEN0);
    SwapIssues(d, "swap", USER, o, 2, TOKEN1);
    FromExchange(d, m, TOKEN0);
    FromExchange(d, m, TOKEN1);
  }

  lemma FromExchange(d: Database, m: Database, t: Tick)
    requires PAIR in d.pools && Exchanged(d, m, USER, PAIR, t) && Issued(m, t) == Issued(d, t)
    ensures Bal(m, t, USER) + Bal(m, t, Reserves(PAIR)) == Bal(d, t, USER) + Bal(d, t, Reserves(PAIR))
  {}

  lemma CacheIs(m: Database)
    requires PAIR in m.pools && PoolAgrees(m, PAIR)
    requires m.pools[PAIR].tick0 == TOKEN0 && m.pools[PAIR].tick1 == TOKEN1
    ensures m.pools[PAIR] == Pool(TOKEN0, TOKEN1, Bal(m, TOKEN0, Reserves(PAIR)), Bal(m, TOKEN1, Reserves(PAIR)),
                                  m.pools[PAIR].total)
  {}

  lemma SwapIssues(d: Database, hash: string, holder: Signer, o: PairOrder, height: nat, t: Tick)
    requires o.order.Exec? && RunOrder(d, hash, holder, o, height).Ok?
    ensures Issued(RunOrder(d, hash, holder, o, height).value.0, t) == Issued(d, t)
  {
    hide Run, Total, ExecOut;
    var script := OrderPlan(d, hash, holder, o.order, height).value.script;
    RunEffect(d, script, height, t, holder);
    ExecScript(d, hash, holder, o.order, height);
    MovesIssueNothing(script, t);
  }

  lemma {:induction false} MovesIssueNothing(script: seq<Step>, t: Tick)
    requires forall s <- script :: s.Move? || s.Refresh? || s.MarkTraded?
    ensures SupplyTotal(script, t) == 0
    decreases |script|
  {
    if script != [] {
      MovesIssueNothing(script[1..], t);
    }
  }

  /** A lagging cache pays out: one transaction of two swaps ends with 902 more of one token and exactly as much of the
      other. Its first swap is priced better than the ledger prices it. */
  lemma StaleSwapPays()
    ensures var d := ExecuteAll(Level(), [GIFT], 1);
            var e := ExecuteAll(d, [ROUND_TRIP], 2);
            && Safe(d) && PAIR in d.pools && Swapping(ROUND_TRIP, USER, PAIR)
            && Bal(e, TOKEN0, USER) == Bal(d, TOKEN0, USER) + 902
            && Bal(e, TOKEN1, USER) == Bal(d, TOKEN1, USER)
            && !LedgerPriced(d, THERE.order)
  {
    hide Level, Safe, ExecuteAll, Bal, Issued, RunOrder;
    GiftSeenByFork();
    var d := ExecuteAll(Level(), [GIFT], 1);
    assert TOKEN0 != TOKEN1;
    var r := Recorded(d, ROUND_TRIP, 2);
    RoundTripRecorded(d, r);
    assert ExecOut(r.pools[PAIR], true, 1000) == 906;
    SwapOnce(r, THERE, true, 1000, 906);
    var m := RunOrder(r, "swap", USER, THERE, 2).value.0;
    assert ExecOut(m.pools[PAIR], false, 906) == 1902;
    SwapOnce(m, BACK, false, 906, 1902);
    RoundTripRuns(d, r, m);
  }

  lemma RoundTripRecorded(d: Database, r: Database)
    requires Safe(d) && r == Recorded(d, ROUND_TRIP, 2)
    ensures Safe(r) && r.pools == d.pools && forall t, a :: Bal(r, t, a) == Bal(d, t, a)
  {
    hide Safe;
    RecordedKeeps(d, ROUND_TRIP, 2, false);
    KeepsSafe(d, r, false);
  }

  lemma RoundTripRuns(d: Database, r: Database, m: Database)
    requires "swap" !in d.infos && r == Recorded(d, ROUND_TRIP, 2)
    requires RunOrder(r, "swap", USER, THERE, 2) == Ok((m, 0))
    requires RunOrder(m, "swap", USER, BACK, 2).Ok? && RunOrder(m, "swap", USER, BACK, 2).value.1 == 0
    ensures ExecuteAll(d, [ROUND_TRIP], 2) == RunOrder(m, "swap", USER, BACK, 2).value.0
  {
    hide RunOrder;
    var os := [THERE, BACK];
    assert os[1..] == [BACK] && os[1..][1..] == [] && [ROUND_TRIP][1..] == [];
    assert Deposits(r.pools, os[1..]) == Ok(0);
    assert Deposits(r.pools, os) == Ok(0);
    assert RunOrders(m, "swap", USER, os[1..], 2) == RunOrder(m, "swap", USER, BACK, 2);
    assert RunOrders(r, "swap", USER, os, 2) == RunOrder(m, "swap", USER, BACK, 2);
  }

  // ---------------------------------------------------------------------------------------------------------------
  // A half-executed block
  // ---------------------------------------------------------------------------------------------------------------

  function Depositing(hash: string, amt: nat): Tx {
    Tx(hash, USER, DepositOp(amt))
  }

  /** A block with one deposit is executed, and before the next one its sibling with another deposit takes its place:
      both count, where indexing the new chain from scratch gives the sibling's alone. */
  lemma HalfBlockStays(max: nat)
    ensures var first := First(0, [], 0);
            var old_, new_ := Link(first, [Depositing("a", 5)], 0), Link(first, [Depositing("b", 7)], 0);
            var half := ExecuteAll(Replay(Fresh(max), false, first), old_.txs, 1);
            && Bal(ExecuteAll(half, new_.txs, 1), WDOGE, USER) == 12
            && Bal(Replay(Fresh(max), false, new_), WDOGE, USER) == 7
  {
    hide ExecuteAll, Replay, Bal;
    ReplayOne(Fresh(max), [Depositing("b", 7)], 0);
    var half := ExecuteAll(Fresh(max), [Depositing("a", 5)], 1);
    FreshWdoge(max);
    Deposited(Fresh(max), "a", 5);
    Deposited(half, "b", 7);
    Deposited(Fresh(max), "b", 7);
  }

  lemma FreshWdoge(max: nat)
    ensures WDOGE in Fresh(max).drc20.tokens && Fresh(max).infos == map[] && Bal(Fresh(max), WDOGE, USER) == 0
  {}

  lemma Deposited(d: Database, hash: string, amt: nat)
    requires WDOGE in d.drc20.tokens && hash !in d.infos && amt >= 1
    ensures var e := ExecuteAll(d, [Depositing(hash, amt)], 1);
            && WDOGE in e.drc20.tokens && e.infos.Keys == d.infos.Keys + {hash}
            && Bal(e, WDOGE, USER) == Bal(d, WDOGE, USER) + amt
  {
    hide Apply, Bal;
    var tx := Depositing(hash, amt);
    var r := Recorded(d, tx, 1);
    var s := MintTo(WDOGE, USER, amt);
    assert [tx][1..] == [] && [s][1..] == [];
    assert SimpleScript(r, tx, 1) == Ok([s]);
    MintGoes(r, WDOGE, USER, amt, 1);
    assert Run(r, [s], 1) == Apply(r, s, 1);
    StepEffect(r, s, 1, WDOGE, USER);
    StepKeeps(r, s, 1);
    assert Bal(r, WDOGE, USER) == Bal(d, WDOGE, USER) by { InfosOnly(d, r); }
  }

  lemma InfosOnly(d: Database, r: Database)
    requires r == d.(infos := r.infos)
    ensures forall t, a :: Bal(r, t, a) == Bal(d, t, a)
  {}

  // ---------------------------------------------------------------------------------------------------------------
  // A curve between the marks
  // ---------------------------------------------------------------------------------------------------------------

  const LAUNCH := Tx("p", USER, PumpOp(Deploy(0, 0, false)))

  function Buying(amt: nat): Tx {
    Tx("t", USER, PumpOp(Trade("p", WDOGE, amt, true)))
  }

  /** A curve deployed on empty tables: all memes on it, nothing real in it. */
  lemma Launched(max: nat)
    ensures var d := ExecuteAll(Fresh(max), [LAUNCH], 1);
            && Pumping(d) && "p" in d.curves && d.curves["p"] == Curve(MEME_MAX, DOGE_INIT, USER)
            && WDOGE in d.drc20.tokens && d.pools == map[] && d.meme20.tokens.Keys == {Meme("p")} && d.inviters == map[]
            && d.infos.Keys == {"p"} && d.infos["p"].height == 1
  {
    hide Pumping, Apply;
    FreshStart(max, 0);
    BlockCurves(Fresh(max), [LAUNCH], 1);
    var r := Recorded(Fresh(max), LAUNCH, 1);
    var s := OpenCurve("p", USER, 0);
    assert [LAUNCH][1..] == [] && [s][1..] == [];
    FreshOpens(max, r);
    assert Run(r, [s], 1) == Apply(r, s, 1);
  }

  lemma FreshOpens(max: nat, r: Database)
    requires r == Recorded(Fresh(max), LAUNCH, 1)
    ensures Apply(r, OpenCurve("p", USER, 0), 1).Ok?
    ensures var f := Apply(r, OpenCurve("p", USER, 0), 1).value;
            && f.curves == map["p" := Curve(MEME_MAX, DOGE_INIT, USER)]
            && WDOGE in f.drc20.tokens && f.pools == map[] && f.meme20.tokens.Keys == {Meme("p")} && f.inviters == map[]
            && f.infos == map["p" := Info(Protocol.Pump, 1, USER, false)]
  {}

  /** The user's coins come in as WDOGE, and the purchase is accepted. */
  lemma Funded(max: nat, amt: nat)
    requires amt >= 100
    ensures var r := Recorded(ExecuteAll(Fresh(max), [LAUNCH], 1), Buying(amt), 2);
            && PayIn(r, USER, amt, 2).Ok?
            && var f := PayIn(r, USER, amt, 2).value;
               && Safe(f) && InvitersTidy(f) && CurveInv(f, "p")
               && "p" in f.curves && f.curves["p"] == Curve(MEME_MAX, DOGE_INIT, USER)
               && V2("t") !in f.pools && Meme("t") !in f.meme20.tokens
               && f.infos == r.infos
               && BuyAccepted(f, USER, "p", amt)
  {
    hide ExecuteAll, Pumping, Safe, CurveInv, InvitersTidy, Apply, BuyAccepted, Bal, Keeps, CurveKept;
    Launched(max);
    var d := ExecuteAll(Fresh(max), [LAUNCH], 1);
    var r := Recorded(d, Buying(amt), 2);
    PumpingParts(d, "p");
    RecordedKeeps(d, Buying(amt), 2, false);
    KeepsSafe(d, r, false);
    RecordedCurve(d, Buying(amt), 2, "p");
    var mint := MintTo(WDOGE, USER, amt);
    MintGoes(r, WDOGE, USER, amt, 2);
    assert [mint][1..] == [];
    assert Run(r, [mint], 2) == Apply(r, mint, 2);
    var f := PayIn(r, USER, amt, 2).value;
    PaysSafe(r, USER, amt, 2);
    KeepsSafe(r, f, true);
    PaysCurve(r, USER, amt, 2, "p");
    LedgerlyRun(r, [mint], 2);
    InvitersSame(d, f);
    StepEffect(r, mint, 2, WDOGE, USER);
    OpenBuy(f, amt);
  }

  lemma PumpingParts(d: Database, id: string)
    requires Pumping(d)
    ensures Safe(d) && InvitersTidy(d) && CurveInv(d, id)
  {}

  lemma OpenBuy(f: Database, amt: nat)
    requires amt >= 100 && amt <= Bal(f, WDOGE, USER) && f.inviters == map[]
    requires CurveInv(f, "p") && "p" in f.curves && f.curves["p"] == Curve(MEME_MAX, DOGE_INIT, USER)
    ensures BuyAccepted(f, USER, "p", amt)
  {
    assert |USER.name| != |TX_FEE.name|;
    var x := amt - amt / 100;
    OutKeepsProduct(x, DOGE_INIT, MEME_MAX);
    Floored(x * MEME_MAX, DOGE_INIT + x, 1);
  }

  /** An accepted first trade at height 2 is the whole transaction, but for its mark. */
  lemma Bought(max: nat, amt: nat)
    requires amt >= 100
    ensures var r := Recorded(ExecuteAll(Fresh(max), [LAUNCH], 1), Buying(amt), 2);
            && PayIn(r, USER, amt, 2).Ok?
            && var f, e := PayIn(r, USER, amt, 2).value, ExecuteAll(ExecuteAll(Fresh(max), [LAUNCH], 1), [Buying(amt)], 2);
               && "p" in f.curves
               && var t := TradeCurve(f, "t", USER, "p", true, amt, 2);
                  t.Ok? ==> e == t.value.(infos := e.infos)
  {
    hide TradeCurve, Pumping, Safe, CurveInv, InvitersTidy, BuyAccepted, PayIn;
    Launched(max);
    Funded(max, amt);
    var d := ExecuteAll(Fresh(max), [LAUNCH], 1);
    hide ExecuteAll;
    var r := Recorded(d, Buying(amt), 2);
    var f := PayIn(r, USER, amt, 2).value;
    BlockOfOne(d, Buying(amt), 2);
    FirstTrade(d, f);
    if TradeCurve(f, "t", USER, "p", true, amt, 2).Ok? {
      var t := TradeCurve(f, "t", USER, "p", true, amt, 2).value;
      var script := TradeIsRun(f, "t", USER, "p", true, amt, 2, Buying(amt).op);
      RunInfos(f, script, 2);
      Marked(t, "t", 2);
    }
  }

  lemma BlockOfOne(d: Database, tx: Tx, height: nat)
    ensures ExecuteAll(d, [tx], height) == ExecuteTx(d, tx, height)
  {
    assert [tx][1..] == [];
  }

  lemma FirstTrade(d: Database, f: Database)
    requires d.infos.Keys == {"p"} && d.infos["p"].height == 1
    requires f.infos == d.infos["t" := Info(Protocol.Pump, 2, USER, false)]
    ensures !TradedAlready(f, Protocol.Pump, USER, 2)
  {}

  lemma Marked(d: Database, hash: string, height: nat)
    requires hash in d.infos && d.infos[hash].height == height && d.infos[hash].protocol != Consensus
    ensures Run(d, [MarkTraded(hash)], height).Ok?
    ensures var e := Run(d, [MarkTraded(hash)], height).value; e == d.(infos := e.infos)
  {
    assert [MarkTraded(hash)][1..] == [];
  }

  /** From empty tables, a deploy and one purchase in the next block: the curve is stuck if the purchase lands between
      the marks, and in its pool if it jumps over both. */
  lemma FirstBuyEnds(max: nat, amt: nat)
    requires DOGE_INIT + (amt - amt / 100) >= CLOSED_AT
    ensures var e := ExecuteAll(ExecuteAll(Fresh(max), [LAUNCH], 1), [Buying(amt)], 2);
            && Pumping(e) && "p" in e.curves && e.curves["p"].amt1 == DOGE_INIT + (amt - amt / 100)
            && (V2("t") in e.pools <==> DOGE_INIT + (amt - amt / 100) >= GRADUATED_AT)
            && (V2("t") in e.pools ==> Bal(e, WDOGE, PumpReserves("p")) == 0)
  {
    hide ExecuteAll, TradeCurve, Pumping, Safe, CurveInv, InvitersTidy, BuyAccepted, PayIn;
    Launched(max);
    Funded(max, amt);
    Bought(max, amt);
    var d := ExecuteAll(Fresh(max), [LAUNCH], 1);
    var f := PayIn(Recorded(d, Buying(amt), 2), USER, amt, 2).value;
    var e := ExecuteAll(d, [Buying(amt)], 2);
    BlockCurves(d, [Buying(amt)], 2);
    GraduatesIff(f, "t", USER, "p", true, amt, 2);
    if DOGE_INIT + (amt - amt / 100) >= GRADUATED_AT {
      TradeGraduates(f, "t", USER, "p", amt, 2);
    } else {
      LandsBetween(f, amt);
    }
    SameLedger(TradeCurve(f, "t", USER, "p", true, amt, 2).value, e);
  }

  lemma LandsBetween(f: Database, amt: nat)
    requires amt > 0 && InvitersTidy(f) && CurveInv(f, "p") && "p" in f.curves && f.curves["p"].amt1 < CLOSED_AT
    requires BuyAccepted(f, USER, "p", amt) && f.curves["p"].amt1 + (amt - amt / 100) < GRADUATED_AT
    ensures TradeCurve(f, "t", USER, "p", true, amt, 2).Ok?
    ensures var t := TradeCurve(f, "t", USER, "p", true, amt, 2).value;
            "p" in t.curves && t.curves["p"].amt1 == f.curves["p"].amt1 + (amt - amt / 100)
  {
    hide TradeCurve, Run, Finish, TradeScript, CurveInv, Backed, InvitersTidy, BuyAccepted, AfterTrade;
    TradeRuns(f, "t", USER, "p", true, amt, 2);
    BuyIff(f, USER, "p", amt, 2);
    ReachesMark(f, USER, "p", true, amt, 2);
  }

  lemma SameLedger(d: Database, e: Database)
    requires e == d.(infos := e.infos)
    ensures e.pools == d.pools && e.curves == d.curves && forall t, a :: Bal(e, t, a) == Bal(d, t, a)
  {}

  /** The disagreement between the two marks is real: one purchase of 4e12 on a new curve, and 3.96e12 WDOGE stay where
      nobody can reach them, whatever the blocks after it hold. */
  lemma StuckRun(max: nat, stages: seq<Stage>)
    requires forall s <- stages, tx <- s.txs :: ToUsers(tx.op)
    ensures var e := ExecuteAll(ExecuteAll(Fresh(max), [LAUNCH], 1), [Buying(4000000000000)], 2);
            var f := Advance(e, stages);
            && "p" in e.curves && "p" in f.curves && f.curves["p"] == e.curves["p"]
            && Bal(f, WDOGE, PumpReserves("p")) == 3960000000000
            && forall trader, input, amt, h :: !TradeVerified(f, trader, "p", input, amt, h)
  {
    hide ExecuteAll, Advance, Pumping, TradeVerified;
    FirstBuyEnds(max, 4000000000000);
    StuckForever(ExecuteAll(ExecuteAll(Fresh(max), [LAUNCH], 1), [Buying(4000000000000)], 2), stages, "p");
  }
}
