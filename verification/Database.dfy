/** The tables that `fork` undoes, the single writes the storage layer makes to them, and `fork` itself, phase by
    phase in the order of explorer/fork.go. */
module Db {
  import opened Results
  import opened Names
  import opened Logs
  import opened Ledger

  const MAX_NUMBER: nat := 99999999999999999999999999999999999999999
  const MEME_MAX: nat := 100000000000000000
  const DOGE_INIT: nat := 300000000000

  /** A row of `swap_liquidity` / `swap_v2_liquidity`; the amounts are a cache of the ledger. */
  datatype Pool = Pool(tick0: Tick, tick1: Tick, amt0: nat, amt1: nat, total: nat)

  /** A row of `pump_liquidity`: `amt0` meme against `amt1` WDOGE, of which `DOGE_INIT` is virtual. */
  datatype Curve = Curve(amt0: nat, amt1: nat, creator: Signer)

  datatype CurveRevert = Deployed(id: string) | Traded(id: string, amt0: nat, amt1: nat)

  datatype Settlement = Active | Closed(block: nat, score: nat)

  /** A row of `consensus_stake_record`. */
  datatype Stake = Stake(holder: Signer, amt: int, block: nat, status: Settlement)

  datatype StakeRevert = Staked(id: string) | Unstaked(id: string)

  datatype Protocol = Drc20 | PairV1 | WDoge | Meme20 | PairV2 | Pump | Consensus

  /** The `*_info` row of a transaction; `traded` says that one of its swaps or trades was executed. */
  datatype Info = Info(protocol: Protocol, height: nat, holder: Signer, traded: bool)

  datatype Database = Database(
    drc20: Book,
    meme20: Book,
    pools: map<PoolId, Pool>,
    poolLog: seq<Entry<PoolId>>,
    curves: map<string, Curve>,
    curveLog: seq<Entry<CurveRevert>>,
    stakes: map<string, Stake>,
    stakeLog: seq<Entry<StakeRevert>>,
    infos: map<string, Info>,
    inviters: map<Signer, Party>)

  function BookOf(db: Database, tick: Tick): Book {
    if tick.Meme? then db.meme20 else db.drc20
  }

  function WithBook(db: Database, tick: Tick, b: Book): Database {
    if tick.Meme? then db.(meme20 := b) else db.(drc20 := b)
  }

  function Bal(db: Database, tick: Tick, a: Address): nat {
    Balance(BookOf(db, tick).tokens, tick, a)
  }

  function Issued(db: Database, tick: Tick): nat {
    Supply(BookOf(db, tick).tokens, tick)
  }

  // ---------------------------------------------------------------------------------------------------------------
  // Single writes
  // ---------------------------------------------------------------------------------------------------------------

  /** One write of a storage transaction, with the revert row it leaves. */
  datatype Step =
    | Move(tick: Tick, from: Party, to: Party, amt: int)
    | MintTo(tick: Tick, to: Party, units: nat)
    | BurnFrom(tick: Tick, from: Party, units: nat)
    | DeployTick(tick: Tick, max: nat, lim: nat)
    | OpenPool(pool: PoolId, tick0: Tick, tick1: Tick)
    | Refresh(pool: PoolId)
    | OpenCurve(id: string, creator: Signer, reserve: nat)
    | SetCurve(id: string, amt0: nat, amt1: nat)
    | OpenStake(id: string, holder: Signer, stake: int)
    | CloseStake(id: string, score: nat)
    | MarkTraded(hash: string)

  /** The meme tokens a new curve starts with: what is not set aside for its creator. */
  function CurveShare(reserve: nat): nat
    requires reserve <= 100
  {
    MEME_MAX / 100 * (100 - reserve)
  }

  /** `UpdateLiquidity` / `UpdateV2Liquidity` for one row. */
  function Refreshed(drc: Tokens, meme: Tokens, id: PoolId, p: Pool): Pool {
    p.(amt0 := Balance(if p.tick0.Meme? then meme else drc, p.tick0, Reserves(id)),
       amt1 := Balance(if p.tick1.Meme? then meme else drc, p.tick1, Reserves(id)),
       total := Supply(if id.V2? then meme else drc, LpTick(id)))
  }

  /** Write new tokens and the posting that undoes the change. */
  function Post(db: Database, ts: Tokens, p: Posting, height: nat): Database {
    WithBook(db, p.tick, Book(ts, BookOf(db, p.tick).log + [Entry(p, height)]))
  }

  /** A new token row without a posting. */
  function AddToken(db: Database, tick: Tick, t: Token): Database {
    var b := BookOf(db, tick);
    WithBook(db, tick, b.(tokens := b.tokens[tick := t]))
  }

  function CurveToken(id: string, creator: Signer, reserve: nat): Token
    requires reserve <= 100
  {
    var share := CurveShare(reserve);
    Token(MEME_MAX, 0, 0, multiset{}[PumpReserves(id) := share][creator := MEME_MAX - share])
  }

  /** `TransferDrc20` / `TransferMeme20`. */
  function TransferIn(db: Database, tick: Tick, from: Party, to: Party, amt: int, height: nat): Result<Database> {
    var ts :- Transfer(BookOf(db, tick).tokens, tick, from, to, amt);
    Ok(Post(db, ts, Posting(from, to, tick, amt), height))
  }

  /** `MintDrc20` / `MintMeme20`. */
  function MintIn(db: Database, tick: Tick, to: Party, units: nat, height: nat): Result<Database> {
    var ts :- Mint(BookOf(db, tick).tokens, tick, to, units);
    Ok(Post(db, ts, Posting(Nobody, to, tick, units), height))
  }

  /** `BurnDrc20` / `BurnMeme20`. */
  function BurnIn(db: Database, tick: Tick, from: Party, units: nat, height: nat): Result<Database> {
    var ts :- Burn(BookOf(db, tick).tokens, tick, from, units);
    Ok(Post(db, ts, Posting(from, Nobody, tick, units), height))
  }

  /** The new pair row, its liquidity token, and the "create" row that lets a fork delete both. */
  function OpenPoolIn(db: Database, pool: PoolId, tick0: Tick, tick1: Tick, height: nat): Result<Database> {
    if pool in db.pools || LpTick(pool) in BookOf(db, LpTick(pool)).tokens then Failed
    else
      Ok(AddToken(db, LpTick(pool), Token(0, MAX_NUMBER, 0, multiset{})).(
         pools := db.pools[pool := Pool(tick0, tick1, 0, 0, 0)],
         poolLog := db.poolLog + [Entry(pool, height)]))
  }

  /** The new meme token with its starting holders, its curve, and the "deploy" row. */
  function OpenCurveIn(db: Database, id: string, creator: Signer, reserve: nat, height: nat): Result<Database> {
    if reserve > 99 || id in db.curves || Meme(id) in db.meme20.tokens then Failed
    else
      Ok(AddToken(db, Meme(id), CurveToken(id, creator, reserve)).(
         curves := db.curves[id := Curve(CurveShare(reserve), DOGE_INIT, creator)],
         curveLog := db.curveLog + [Entry(Deployed(id), height)]))
  }

  /** The new curve amounts, and a "trade" row holding the old ones. */
  function SetCurveIn(db: Database, id: string, amt0: nat, amt1: nat, height: nat): Result<Database> {
    if id !in db.curves then Failed
    else
      var c := db.curves[id];
      Ok(db.(curves := db.curves[id := c.(amt0 := amt0, amt1 := amt1)],
             curveLog := db.curveLog + [Entry(Traded(id, c.amt0, c.amt1), height)]))
  }

  function OpenStakeIn(db: Database, id: string, holder: Signer, amt: int, height: nat): Result<Database> {
    if id in db.stakes then Failed
    else
      Ok(db.(stakes := db.stakes[id := Stake(holder, amt, height, Active)],
             stakeLog := db.stakeLog + [Entry(Staked(id), height)]))
  }

  function CloseStakeIn(db: Database, id: string, score: nat, height: nat): Result<Database> {
    if id !in db.stakes || db.stakes[id].status != Active then Failed
    else
      Ok(db.(stakes := db.stakes[id := db.stakes[id].(status := Closed(height, score))],
             stakeLog := db.stakeLog + [Entry(Unstaked(id), height)]))
  }

  function Apply(db: Database, s: Step, height: nat): Result<Database> {
    match s
    case Move(tick, from, to, amt) => TransferIn(db, tick, from, to, amt, height)
    case MintTo(tick, to, units) => MintIn(db, tick, to, units, height)
    case BurnFrom(tick, from, units) => BurnIn(db, tick, from, units, height)
    case DeployTick(tick, max, lim) =>
      if !tick.Drc? || tick in db.drc20.tokens then Failed
      else Ok(AddToken(db, tick, Token(0, max, lim, multiset{})))
    case OpenPool(pool, tick0, tick1) => OpenPoolIn(db, pool, tick0, tick1, height)
    case Refresh(pool) =>
      if pool !in db.pools then Failed
      else Ok(db.(pools := db.pools[pool := Refreshed(db.drc20.tokens, db.meme20.tokens, pool, db.pools[pool])]))
    case OpenCurve(id, creator, reserve) => OpenCurveIn(db, id, creator, reserve, height)
    case SetCurve(id, amt0, amt1) => SetCurveIn(db, id, amt0, amt1, height)
    case OpenStake(id, holder, stake) => OpenStakeIn(db, id, holder, stake, height)
    case CloseStake(id, score) => CloseStakeIn(db, id, score, height)
    case MarkTraded(hash) =>
      if hash !in db.infos || db.infos[hash].height != height || db.infos[hash].protocol == Consensus then Failed
      else Ok(db.(infos := db.infos[hash := db.infos[hash].(traded := true)]))
  }

  /** A storage transaction: all of its writes, or none. */
  function Run(db: Database, script: seq<Step>, height: nat): Result<Database>
    decreases |script|
  {
    if script == [] then Ok(db)
    else
      var next :- Apply(db, script[0], height);
      Run(next, script[1..], height)
  }

  lemma {:induction false} RunAppend(db: Database, a: seq<Step>, b: seq<Step>, height: nat)
    ensures Run(db, a + b, height) ==
            if Run(db, a, height).Ok? then Run(Run(db, a, height).value, b, height) else Failed
    decreases |a|
  {
    if a == [] {
      assert a + b == b;
    } else {
      assert (a + b)[0] == a[0] && (a + b)[1..] == a[1..] + b;
      if Apply(db, a[0], height).Ok? {
        RunAppend(Apply(db, a[0], height).value, a[1..], b, height);
      }
    }
  }

  // ---------------------------------------------------------------------------------------------------------------
  // Fork
  // ---------------------------------------------------------------------------------------------------------------

  function RewindCurves(curves: map<string, Curve>, log: seq<Entry<CurveRevert>>): map<string, Curve>
    decreases |log|
  {
    if log == [] then curves
    else
      var prev := match log[|log| - 1].row
        case Deployed(id) => curves - {id}
        case Traded(id, amt0, amt1) =>
          if id in curves then curves[id := curves[id].(amt0 := amt0, amt1 := amt1)] else curves;
      RewindCurves(prev, log[..|log| - 1])
  }

  /** Re-opening a record that is gone stops the fork; deleting one that is gone does not. */
  function RewindStakes(stakes: map<string, Stake>, log: seq<Entry<StakeRevert>>): Result<map<string, Stake>>
    decreases |log|
  {
    if log == [] then Ok(stakes)
    else
      match log[|log| - 1].row
      case Staked(id) => RewindStakes(stakes - {id}, log[..|log| - 1])
      case Unstaked(id) =>
        if id !in stakes then Failed
        else RewindStakes(stakes[id := stakes[id].(status := Active)], log[..|log| - 1])
  }

  function Opened(log: seq<Entry<PoolId>>): set<PoolId> {
    set e <- log :: e.row
  }

  function LpTicks(pools: set<PoolId>): set<Tick> {
    set p <- pools :: LpTick(p)
  }

  /** The meme tokens whose rows `pumpFork` deletes. */
  function CurveTicks(log: seq<Entry<CurveRevert>>): set<Tick> {
    set e <- log | e.row.Deployed? :: Meme(e.row.id)
  }

  /** `delInfo`: every info table except `consensus_info` is cut at the height. */
  function KeptInfos(infos: map<string, Info>, h: nat): map<string, Info> {
    map k <- infos | infos[k].height <= h || infos[k].protocol == Consensus :: infos[k]
  }

  function RefreshAll(drc: Tokens, meme: Tokens, pools: map<PoolId, Pool>): map<PoolId, Pool> {
    map id <- pools :: Refreshed(drc, meme, id, pools[id])
  }

  /** explorer/fork.go, in its order: infos, drc-20 undo, meme-20 undo, curves (and their tokens), pools (and their
      liquidity tokens, then every cached reserve), consensus records, and last the revert rows themselves. */
  function Fork(db: Database, h: nat): Result<Database> {
    var drc :- Rewind(db.drc20.tokens, Above(db.drc20.log, h));
    var meme :- Rewind(db.meme20.tokens, Above(db.meme20.log, h));
    var lateCurves := Above(db.curveLog, h);
    var latePools := Opened(Above(db.poolLog, h));
    var stakes :- RewindStakes(db.stakes, Above(db.stakeLog, h));
    var books := db.(
      infos := KeptInfos(db.infos, h),
      drc20 := Book(drc - LpTicks(latePools), Upto(db.drc20.log, h)),
      meme20 := Book(meme - CurveTicks(lateCurves) - LpTicks(latePools), Upto(db.meme20.log, h)),
      curves := RewindCurves(db.curves, lateCurves),
      curveLog := Upto(db.curveLog, h),
      stakes := stakes,
      stakeLog := Upto(db.stakeLog, h),
      poolLog := Upto(db.poolLog, h));
    Ok(books.(pools := RefreshAll(books.drc20.tokens, books.meme20.tokens, db.pools - latePools)))
  }
}
