/** The pump bonding curve: deploy, trade, and graduation into a v2 pool. */
module Pump {
  import opened Results
  import opened Names
  import opened Db
  import opened Quotes
  import opened Swap

  /** Real WDOGE at which a curve graduates (storage/pump.go). */
  const DOGE_MAX: nat := 10000000000000
  /** Curve amount at which `verifyPumpTrade` closes it (explorer/verifys.go), virtual WDOGE included. */
  const CLOSED_AT: nat := 3300000000000
  const MAX_FIRST_BUY: nat := 500000000000
  const PUMP_FINISH_FEE: nat := 100000000000
  const PUMP_CREATE_HOLDER_FEE: nat := 10000000000

  datatype PumpOrder =
    | Deploy(reserve: int, firstBuy: int, doge: bool)
    | Trade(id: string, input: Tick, amt: int, doge: bool)

  /** The trading fee to the fee address, and half of it on to the trader's inviter if there is one. */
  function FeeScript(db: Database, trader: Signer, payer: Party, fee: nat): seq<Step> {
    [Move(WDOGE, payer, TX_FEE, fee)] +
    if trader in db.inviters then [Move(WDOGE, TX_FEE, db.inviters[trader], fee / 2)] else []
  }

  /** WDOGE in, meme out: the fee is taken off the input. */
  function BuyScript(db: Database, trader: Signer, id: string, c: Curve, amt: nat): (script: seq<Step>)
    requires amt > 0
  {
    var fee := amt / 100;
    var x := amt - fee;
    OutKeepsProduct(x, c.amt1, c.amt0);
    var out := Out(x, c.amt1, c.amt0);
    FeeScript(db, trader, trader, fee) +
    [Move(WDOGE, trader, PumpReserves(id), x),
     Move(Meme(id), PumpReserves(id), trader, out),
     SetCurve(id, c.amt0 - out, c.amt1 + x)]
  }

  /** Meme in, WDOGE out: the fee is taken off the output. */
  function SellScript(db: Database, trader: Signer, id: string, c: Curve, amt: nat): (script: seq<Step>)
    requires amt > 0
  {
    OutKeepsProduct(amt, c.amt0, c.amt1);
    var out := Out(amt, c.amt0, c.amt1);
    var fee := out / 100;
    [Move(Meme(id), trader, PumpReserves(id), amt)] +
    FeeScript(db, trader, PumpReserves(id), fee) +
    [Move(WDOGE, PumpReserves(id), trader, out - fee),
     SetCurve(id, c.amt0 + amt, c.amt1 - out)]
  }

  /** `pump.Amt1Out` of a sale. */
  function SaleProceeds(c: Curve, amt: nat): nat
    requires amt > 0
  {
    var out := Out(amt, c.amt0, c.amt1);
    out - out / 100
  }

  /** The two graduation fees, paid out of the curve and burned. */
  function FinishFees(id: string, creator: Signer): seq<Step> {
    [Move(WDOGE, PumpReserves(id), FINISH_FEE, PUMP_FINISH_FEE),
     BurnFrom(WDOGE, FINISH_FEE, PUMP_FINISH_FEE),
     Move(WDOGE, PumpReserves(id), creator, PUMP_CREATE_HOLDER_FEE),
     BurnFrom(WDOGE, creator, PUMP_CREATE_HOLDER_FEE)]
  }

  /** `PumpFinish`: everything left at the curve's address goes into the new v2 pool named by the trade. */
  function Finish(db: Database, hash: string, id: string, creator: Signer, height: nat): Result<Database> {
    var paid :- Run(db, FinishFees(id, creator), height);
    var script :- CreateScript(PumpReserves(id), V2(hash), Meme(id), WDOGE,
                               Bal(paid, Meme(id), PumpReserves(id)), Bal(paid, WDOGE, PumpReserves(id)));
    Run(paid, script, height)
  }

  /** `PumpTrade`. */
  function TradeCurve(db: Database, hash: string, trader: Signer, id: string, buy: bool, amt: nat, height: nat)
    : Result<Database>
    requires amt > 0
  {
    if id !in db.curves then Failed
    else
      var c := db.curves[id];
      var traded :- Run(db, if buy then BuyScript(db, trader, id, c, amt) else SellScript(db, trader, id, c, amt), height);
      if Bal(traded, WDOGE, PumpReserves(id)) >= DOGE_MAX then Finish(traded, hash, id, c.creator, height)
      else Ok(traded)
  }

  /** `verifyPumpTrade`. */
  predicate TradeVerified(db: Database, trader: Signer, id: string, input: Tick, amt: int, height: nat) {
    && amt >= 1
    && id in db.curves
    && db.curves[id].amt1 < CLOSED_AT
    && !TradedAlready(db, Protocol.Pump, trader, height)
    && (input == Meme(id) || input == WDOGE)
  }

  /** The part of `executePump` that is rolled back as one, for a trade. */
  function TradeOrder(db: Database, hash: string, trader: Signer, id: string, input: Tick, amt: int, doge: bool,
                      height: nat): Result<Database> {
    if !TradeVerified(db, trader, id, input, amt, height) then Failed
    else
      var traded :- TradeCurve(db, hash, trader, id, input == WDOGE, amt, height);
      var marked :- Run(traded, [MarkTraded(hash)], height);
      PayOut(marked, trader, if doge && input != WDOGE then SaleProceeds(db.curves[id], amt) else 0, height)
  }

  /** `verifyPumpDeploy` and `PumpDeploy`; the token's id is the transaction's hash. */
  function DeployOrder(db: Database, hash: string, creator: Signer, reserve: int, firstBuy: int, height: nat)
    : Result<Database>
  {
    if reserve < 0 || reserve > 99 || (reserve > 0 && firstBuy > 0) || firstBuy > MAX_FIRST_BUY then Failed
    else
      var opened_ :- Run(db, [OpenCurve(hash, creator, reserve)], height);
      if firstBuy > 0 then TradeCurve(opened_, hash, creator, hash, true, firstBuy, height) else Ok(opened_)
  }

  function PumpDeposit(o: PumpOrder): int {
    match o
    case Deploy(_, firstBuy, doge) => if doge then firstBuy else 0
    case Trade(_, input, amt, doge) => if doge && input == WDOGE then amt else 0
  }

  /** `executePump`. */
  function PumpTx(db: Database, hash: string, holder: Signer, o: PumpOrder, height: nat): Database {
    match PayIn(db, holder, PumpDeposit(o), height)
    case Failed => db
    case Ok(funded) =>
      var outcome := match o
        case Deploy(reserve, firstBuy, _) => DeployOrder(funded, hash, holder, reserve, firstBuy, height)
        case Trade(id, input, amt, doge) => TradeOrder(funded, hash, holder, id, input, amt, doge, height);
      if outcome.Ok? then outcome.value else funded
  }
}
