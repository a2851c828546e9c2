/** One decoded transaction, as `scan` dispatches it. */
module Execute {
  import opened Results
  import opened Names
  import opened Db
  import opened Swap
  import opened Pump
  import Score

  const MIN_WITHDRAW: nat := 100000000

  datatype Op =
    | DeployOp(symbol: string, max: int, lim: int)
    | MintOp(symbol: string, amt: int, repeat_: int)
    | TransferOp(tick: Tick, to: Party, amt: int)
    | DepositOp(amt: int)
    | WithdrawOp(amt: int)
    | MemeTransferOp(id: string, to: Party, amt: int)
    | PairV1Op(orders: seq<PairOrder>)
    | PairV2Op(orders: seq<PairOrder>)
    | PumpOp(order: PumpOrder)
    | StakeOp(amt: int)
    | UnstakeOp(stakeId: string)

  /** `holder` is the address of the first output. */
  datatype Tx = Tx(hash: string, holder: Signer, op: Op)

  function ProtocolOf(op: Op): Protocol {
    match op
    case DeployOp(_, _, _) => Drc20
    case MintOp(_, _, _) => Drc20
    case TransferOp(_, _, _) => Drc20
    case DepositOp(_) => WDoge
    case WithdrawOp(_) => WDoge
    case MemeTransferOp(_, _, _) => Meme20
    case PairV1Op(_) => PairV1
    case PairV2Op(_) => PairV2
    case PumpOp(_) => Protocol.Pump
    case StakeOp(_) => Consensus
    case UnstakeOp(_) => Consensus
  }

  /** `verifyDeploy`. */
  function DeployScript(symbol: string, max: int, lim: int): Result<seq<Step>> {
    if |symbol| < 2 || |symbol| > 8 || max < 1 || lim < 1 || max > MAX_NUMBER || lim > MAX_NUMBER || max < lim then Failed
    else Ok([DeployTick(Drc(symbol), max, lim)])
  }

  /** `verifyMint` and `drc20Mint`: never past the tick's maximum. */
  function MintScript(db: Database, holder: Signer, symbol: string, amt: int, repeat_: int): Result<seq<Step>> {
    if |symbol| < 2 || |symbol| > 8 || Drc(symbol) !in db.drc20.tokens || amt < 1 || repeat_ < 0 then Failed
    else
      var t := db.drc20.tokens[Drc(symbol)];
      if amt > t.lim || t.supply + amt * repeat_ > t.max then Failed
      else Ok([MintTo(Drc(symbol), holder, amt * repeat_)])
  }

  /** `verifyMeme20Transfer`: no transfer in a block in which the holder has already traded or swapped. */
  function MemeTransferScript(db: Database, holder: Signer, id: string, to: Party, amt: int, height: nat)
    : Result<seq<Step>>
  {
    if TradedAlready(db, Protocol.Pump, holder, height) || TradedAlready(db, PairV2, holder, height) then Failed
    else Ok([Move(Meme(id), holder, to, amt)])
  }

  /** `ConsensusStake`: the escrow address and the record are both named by the transaction. */
  function StakeScript(hash: string, holder: Signer, amt: int): seq<Step> {
    [OpenStake(hash, holder, amt), Move(CARDI, holder, Escrow(hash), amt)]
  }

  /** `ConsensusUnstake`: the whole amount, to the staker only, and the record is closed with its score. */
  function UnstakeScript(db: Database, holder: Signer, id: string, height: nat): Result<seq<Step>> {
    if id !in db.stakes || db.stakes[id].status != Active || db.stakes[id].holder != holder then Failed
    else
      var r := db.stakes[id];
      Ok([CloseStake(id, Score.ScoreByBlocks(r.amt, height - r.block)), Move(CARDI, Escrow(id), holder, r.amt)])
  }

  /** The script of an operation that is a single database transaction. */
  function SimpleScript(db: Database, tx: Tx, height: nat): Result<seq<Step>>
    requires !tx.op.PairV1Op? && !tx.op.PairV2Op? && !tx.op.PumpOp?
  {
    match tx.op
    case DeployOp(symbol, max, lim) => DeployScript(symbol, max, lim)
    case MintOp(symbol, amt, repeat_) => MintScript(db, tx.holder, symbol, amt, repeat_)
    case TransferOp(tick, to, amt) => if tick.Meme? then Failed else Ok([Move(tick, tx.holder, to, amt)])
    case DepositOp(amt) => if amt < 1 then Failed else Ok([MintTo(WDOGE, tx.holder, amt)])
    case WithdrawOp(amt) => if amt < MIN_WITHDRAW then Failed else Ok([BurnFrom(WDOGE, tx.holder, amt)])
    case MemeTransferOp(id, to, amt) => MemeTransferScript(db, tx.holder, id, to, amt, height)
    case StakeOp(amt) => Ok(StakeScript(tx.hash, tx.holder, amt))
    case UnstakeOp(id) => UnstakeScript(db, tx.holder, id, height)
  }

  /** One dispatched operation; a failed one leaves what it had committed. */
  function Dispatch(db: Database, tx: Tx, height: nat): Database {
    match tx.op
    case PairV1Op(orders) => PairTx(db, tx.hash, tx.holder, orders, height)
    case PairV2Op(orders) => PairTx(db, tx.hash, tx.holder, orders, height)
    case PumpOp(order) => PumpTx(db, tx.hash, tx.holder, order, height)
    case _ =>
      match SimpleScript(db, tx, height)
      case Failed => db
      case Ok(script) =>
        match Run(db, script, height)
        case Failed => db
        case Ok(next) => next
  }

  /** The info row that `*Decode` saves before the operation is tried. */
  function Recorded(db: Database, tx: Tx, height: nat): Database {
    db.(infos := db.infos[tx.hash := Info(ProtocolOf(tx.op), height, tx.holder, false)])
  }

  /** A transaction whose hash is on record is skipped. */
  function ExecuteTx(db: Database, tx: Tx, height: nat): Database {
    if tx.hash in db.infos then db else Dispatch(Recorded(db, tx, height), tx, height)
  }

  function ExecuteAll(db: Database, txs: seq<Tx>, height: nat): Database
    decreases |txs|
  {
    if txs == [] then db else ExecuteAll(ExecuteTx(db, txs[0], height), txs[1..], height)
  }

  /** A block, or the rest of one, at its height. */
  datatype Stage = Stage(txs: seq<Tx>, height: nat)

  /** Several blocks in a row, without a fork between them. */
  function Advance(db: Database, stages: seq<Stage>): Database
    decreases |stages|
  {
    if stages == [] then db else Advance(ExecuteAll(db, stages[0].txs, stages[0].height), stages[1..])
  }

  lemma {:induction false} AdvanceAppend(db: Database, a: seq<Stage>, b: seq<Stage>)
    ensures Advance(db, a + b) == Advance(Advance(db, a), b)
    decreases |a|
  {
    hide ExecuteAll;
    if a == [] {
      assert a + b == b;
    } else {
      assert (a + b)[0] == a[0] && (a + b)[1..] == a[1..] + b;
      AdvanceAppend(ExecuteAll(db, a[0].txs, a[0].height), a[1..], b);
    }
  }
}
