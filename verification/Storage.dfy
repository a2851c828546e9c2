/** The storage layer in place: one method per operation of the storage package, writing table rows in the order of the
    source, each proved to be the script of writes the model runs. A method that returns false may have left writes in
    the open database transaction, which its caller rolls back. */
module Storage {
  import opened Results
  import opened Names
  import opened Logs
  import opened Ledger
  import opened Db
  import opened Quotes
  import opened Swap
  import opened Pump
  import opened Execute
  import opened Rollback
  import opened Chronicles
  import opened Effects
  import opened Tables
  import Score

  lemma NextStep(d0: Database, script: seq<Step>, k: nat, height: nat, d: Database)
    requires k < |script| && Run(d0, script[..k], height) == Ok(d)
    ensures Apply(d, script[k], height).Ok? ==> Run(d0, script[..k + 1], height) == Apply(d, script[k], height)
    ensures Apply(d, script[k], height).Failed? ==> Run(d0, script, height) == Failed
  {
    assert script[..k + 1] == script[..k] + [script[k]];
    assert script == script[..k] + script[k..];
    assert [script[k]][1..] == [];
    RunAppend(d0, script[..k], [script[k]], height);
    RunAppend(d0, script[..k], script[k..], height);
    if Apply(d, script[k], height).Ok? {
      assert Run(Apply(d, script[k], height).value, [], height) == Apply(d, script[k], height);
    }
  }

  /** The outcome of a method against the model's script: the state the script runs to, or a script that does not run.
      */
  ghost predicate Did(d0: Database, script: Result<seq<Step>>, height: nat, ok: bool, d: Database) {
    if ok then script.Ok? && Run(d0, script.value, height) == Ok(d)
    else script.Ok? ==> Run(d0, script.value, height) == Failed
  }

  lemma Finished(d0: Database, script: seq<Step>, height: nat, d: Database)
    requires Run(d0, script[..|script|], height) == Ok(d)
    ensures Run(d0, script, height) == Ok(d)
  {
    assert script[..|script|] == script;
  }

  class DBClient {
    const drc20: TokenTable
    const meme20: TokenTable
    var pools: map<PoolId, Pool>
    var poolLog: seq<Entry<PoolId>>
    var curves: map<string, Curve>
    var curveLog: seq<Entry<CurveRevert>>
    var stakes: map<string, Stake>
    var stakeLog: seq<Entry<StakeRevert>>
    var infos: map<string, Info>
    const inviters: map<Signer, Party>

    ghost predicate Valid()
      reads this, drc20, meme20
    {
      && drc20 != meme20
      && drc20.Valid() && meme20.Valid()
      && Typed(drc20.book.tokens.Keys, meme20.book.tokens.Keys)
    }

    ghost predicate InStep()
      reads this, drc20, meme20
    {
      Valid() && drc20.InStep() && meme20.InStep()
    }

    ghost function State(): Database
      reads this, drc20, meme20
    {
      Database(drc20.book, meme20.book, pools, poolLog, curves, curveLog, stakes, stakeLog, infos, inviters)
    }

    constructor (inviters: map<Signer, Party>)
      ensures InStep() && fresh(drc20) && fresh(meme20)
      ensures State() == Database(Book(map[], []), Book(map[], []), map[], [], map[], [], map[], [], map[], inviters)
    {
      drc20 := new TokenTable();
      meme20 := new TokenTable();
      pools, poolLog, curves, curveLog, stakes, stakeLog, infos := map[], [], map[], [], map[], [], map[];
      this.inviters := inviters;
    }

    // -------------------------------------------------------------------------------------------------------------
    // Single writes: the `k`th step of a script that started in `d0`
    // -------------------------------------------------------------------------------------------------------------

    ghost predicate Reached(d0: Database, script: seq<Step>, k: nat, height: nat)
      reads this, drc20, meme20
    {
      k <= |script| && Run(d0, script[..k], height) == Ok(State())
    }

    method Transfer(tick: Tick, from: Party, to: Party, amt: int, height: nat, ghost d0: Database, ghost script: seq<Step>,
                    ghost k: nat) returns (ok: bool)
      requires InStep() && Reached(d0, script, k, height) && k < |script| && script[k] == Move(tick, from, to, amt)
      modifies drc20, meme20
      ensures InStep()
      ensures !ok ==> State() == old(State())
      ensures if ok then Reached(d0, script, k + 1, height) else Run(d0, script, height) == Failed
    {
      hide Ledger.Transfer, Run, Means, Logged, Typed;
      ghost var d := State();
      NextStep(d0, script, k, height, d);
      TransferKeys(BookOf(d, tick).tokens, tick, from, to, amt);
      if tick.Meme? {
        ok := meme20.Send(tick, from, to, amt, height, false);
      } else {
        ok := drc20.Send(tick, from, to, amt, height, false);
      }
    }

    method MintToken(tick: Tick, holder: Party, amt: nat, height: nat, ghost d0: Database, ghost script: seq<Step>,
                     ghost k: nat) returns (ok: bool)
      requires InStep() && Reached(d0, script, k, height) && k < |script| && script[k] == MintTo(tick, holder, amt)
      modifies drc20, meme20
      ensures InStep()
      ensures !ok ==> State() == old(State())
      ensures if ok then Reached(d0, script, k + 1, height) else Run(d0, script, height) == Failed
    {
      hide Ledger.Mint, Run, Means, Logged, Typed;
      ghost var d := State();
      NextStep(d0, script, k, height, d);
      MintKeys(BookOf(d, tick).tokens, tick, holder, amt);
      if tick.Meme? {
        ok := meme20.Issue(tick, holder, amt, height, false);
      } else {
        ok := drc20.Issue(tick, holder, amt, height, false);
      }
    }

    method BurnToken(tick: Tick, holder: Party, amt: nat, height: nat, ghost d0: Database, ghost script: seq<Step>,
                     ghost k: nat) returns (ok: bool)
      requires InStep() && Reached(d0, script, k, height) && k < |script| && script[k] == BurnFrom(tick, holder, amt)
      requires amt >= 1
      modifies drc20, meme20
      ensures InStep()
      ensures !ok ==> State() == old(State())
      ensures if ok then Reached(d0, script, k + 1, height) else Run(d0, script, height) == Failed
    {
      hide Ledger.Burn, Run, Means, Logged, Typed;
      ghost var d := State();
      NextStep(d0, script, k, height, d);
      BurnKeys(BookOf(d, tick).tokens, tick, holder, amt);
      if tick.Meme? {
        ok := meme20.Redeem(tick, holder, amt, height, false);
      } else {
        ok := drc20.Redeem(tick, holder, amt, height, false);
      }
    }

    // The amounts on record at an address.
    method Held(tick: Tick, a: Address) returns (n: nat)
      requires Valid()
      ensures n == Bal(State(), tick, a)
    {
      if tick.Meme? {
        n := Count(meme20.rows, tick, a);
      } else {
        n := Count(drc20.rows, tick, a);
      }
    }

    method Supplied(tick: Tick) returns (n: nat)
      requires Valid()
      ensures n == Issued(State(), tick)
    {
      n := 0;
      if tick.Meme? {
        if tick in meme20.collect { n := meme20.collect[tick].supply; }
      } else {
        if tick in drc20.collect { n := drc20.collect[tick].supply; }
      }
    }

    /** A new collect row, unless the tick is taken. */
    method CreateTick(tick: Tick, max: nat, lim: nat) returns (ok: bool)
      requires InStep()
      modifies drc20, meme20
      ensures InStep()
      ensures ok == (tick !in BookOf(old(State()), tick).tokens)
      ensures ok ==> State() == AddToken(old(State()), tick, Token(0, max, lim, multiset{}))
      ensures !ok ==> State() == old(State())
    {
      hide Logged;
      ok := false;
      if tick.Meme? {
        if tick in meme20.collect { return; }
        meme20.Create(tick, max, lim);
      } else {
        if tick in drc20.collect { return; }
        drc20.Create(tick, max, lim);
      }
      ok := true;
    }

    /** The pair row, its liquidity token, and its "create" revert row. */
    method CreatePair(pool: PoolId, tick0: Tick, tick1: Tick, height: nat, ghost d0: Database, ghost script: seq<Step>,
                      ghost k: nat) returns (ok: bool)
      requires InStep() && Reached(d0, script, k, height) && k < |script| && script[k] == OpenPool(pool, tick0, tick1)
      modifies this, drc20, meme20
      ensures InStep()
      ensures if ok then Reached(d0, script, k + 1, height) else Run(d0, script, height) == Failed
      ensures ok ==> pool in pools
    {
      hide Run, Logged, AddToken, Means, Typed;
      ghost var d := State();
      NextStep(d0, script, k, height, d);
      ok := false;
      if pool in pools { return; }
      ok := CreateTick(LpTick(pool), MAX_NUMBER, 0);
      if !ok { return; }
      pools := pools[pool := Pool(tick0, tick1, 0, 0, 0)];
      poolLog := poolLog + [Entry(pool, height)];
    }

    /** `UpdateLiquidity` / `UpdateV2Liquidity`: one row, from the ledger. */
    method UpdateLiquidity(pool: PoolId, height: nat, ghost d0: Database, ghost script: seq<Step>, ghost k: nat)
      requires InStep() && Reached(d0, script, k, height) && k < |script| && script[k] == Refresh(pool)
      requires pool in pools
      modifies this`pools
      ensures InStep() && Reached(d0, script, k + 1, height)
      ensures pools.Keys == old(pools.Keys)
    {
      hide Run, Logged, Means;
      ghost var d := State();
      NextStep(d0, script, k, height, d);
      RefreshRow(pool);
    }

    // -------------------------------------------------------------------------------------------------------------
    // Pair operations
    // -------------------------------------------------------------------------------------------------------------

    /** The rows, transfers and mints of a new pair. */
    method OpenPair(holder: Party, pool: PoolId, tick0: Tick, tick1: Tick, amt0: int, amt1: int, minted: nat, height: nat)
      returns (ok: bool)
      requires InStep()
      modifies this, drc20, meme20
      ensures InStep()
      ensures Did(old(State()), Ok([OpenPool(pool, tick0, tick1),
                                    Move(tick0, holder, Reserves(pool), amt0),
                                    Move(tick1, holder, Reserves(pool), amt1),
                                    MintTo(LpTick(pool), holder, minted),
                                    MintTo(LpTick(pool), Reserves(pool), MINI_LIQUIDITY),
                                    Refresh(pool)]), height, ok, State())
    {
      hide Run, Valid, InStep, Reached;
      ghost var d0 := State();
      ghost var script := [OpenPool(pool, tick0, tick1),
                           Move(tick0, holder, Reserves(pool), amt0),
                           Move(tick1, holder, Reserves(pool), amt1),
                           MintTo(LpTick(pool), holder, minted),
                           MintTo(LpTick(pool), Reserves(pool), MINI_LIQUIDITY),
                           Refresh(pool)];
      AtStart(d0, script, height);
      ok := CreatePair(pool, tick0, tick1, height, d0, script, 0);
      if !ok { return; }
      ok := Transfer(tick0, holder, Reserves(pool), amt0, height, d0, script, 1);
      if !ok { return; }
      ok := Transfer(tick1, holder, Reserves(pool), amt1, height, d0, script, 2);
      if !ok { return; }
      ok := MintToken(LpTick(pool), holder, minted, height, d0, script, 3);
      if !ok { return; }
      ok := MintToken(LpTick(pool), Reserves(pool), MINI_LIQUIDITY, height, d0, script, 4);
      if !ok { return; }
      UpdateLiquidity(pool, height, d0, script, 5);
      AtEnd(d0, script, height);
    }

    /** `SwapCreate` / `SwapV2Create`. */
    method SwapCreate(holder: Party, pool: PoolId, tick0: Tick, tick1: Tick, amt0: int, amt1: int, height: nat)
      returns (ok: bool)
      requires InStep()
      modifies this, drc20, meme20
      ensures InStep()
      ensures Did(old(State()), CreateScript(holder, pool, tick0, tick1, amt0, amt1), height, ok, State())
    {
      hide Run, Isqrt, Valid, InStep;
      ok := false;
      if amt0 < 1 || amt1 < 1 || tick0 == tick1 || (pool.V1? && pool != V1(tick0, tick1)) { return; }
      var liquidityBase := Isqrt(amt0 * amt1);
      if liquidityBase <= MINI_LIQUIDITY { return; }
      ok := OpenPair(holder, pool, tick0, tick1, amt0, amt1, liquidityBase - MINI_LIQUIDITY, height);
    }

    /** The two payments, the mint and the refresh of an add. */
    method PayAdd(holder: Signer, pool: PoolId, tick0: Tick, tick1: Tick, pay0: nat, pay1: nat, liquidity: nat, height: nat)
      returns (ok: bool)
      requires InStep() && pool in pools
      modifies this, drc20, meme20
      ensures InStep()
      ensures Did(old(State()), Ok([Move(tick0, holder, Reserves(pool), pay0),
                                    Move(tick1, holder, Reserves(pool), pay1),
                                    MintTo(LpTick(pool), holder, liquidity),
                                    Refresh(pool)]), height, ok, State())
    {
      hide Run, Valid, InStep, Reached;
      ghost var d0 := State();
      ghost var script := [Move(tick0, holder, Reserves(pool), pay0), Move(tick1, holder, Reserves(pool), pay1),
                           MintTo(LpTick(pool), holder, liquidity), Refresh(pool)];
      AtStart(d0, script, height);
      ok := Transfer(tick0, holder, Reserves(pool), pay0, height, d0, script, 0);
      if !ok { return; }
      ok := Transfer(tick1, holder, Reserves(pool), pay1, height, d0, script, 1);
      if !ok { return; }
      ok := MintToken(LpTick(pool), holder, liquidity, height, d0, script, 2);
      if !ok { return; }
      UpdateLiquidity(pool, height, d0, script, 3);
      AtEnd(d0, script, height);
    }

    /** `SwapAdd` / `SwapV2Add` behind their guards. */
    method SwapAdd(holder: Signer, pool: PoolId, amt0: int, amt1: int, min0: int, min1: int, height: nat)
      returns (ok: bool)
      requires InStep()
      modifies this, drc20, meme20
      ensures InStep()
      ensures Did(old(State()), AddScript(old(State()), holder, pool, amt0, amt1, min0, min1), height, ok, State())
    {
      hide Run, AddVerified, AddAmounts, Minted, Valid, InStep;
      ok := false;
      if pool !in pools { return; }
      var swapl := pools[pool];
      InStepValid();
      var held0 := Held(swapl.tick0, holder);
      var held1 := Held(swapl.tick1, holder);
      if !AddVerified(held0, held1, swapl, amt0, amt1, min0, min1) { return; }
      Verified(held0, held1, swapl, amt0, amt1, min0, min1);
      match AddAmounts(amt0, amt1, min0, min1, swapl.amt0, swapl.amt1)
      case Failed => return;
      case Ok(settled) =>
        var liquidity := Minted(settled.0, settled.1, swapl.amt0, swapl.amt1, swapl.total);
        var pay0, pay1 := if pool.V1? then settled.0 else amt0, if pool.V1? then settled.1 else amt1;
        ok := PayAdd(holder, pool, swapl.tick0, swapl.tick1, pay0, pay1, liquidity, height);
    }

    /** The two payouts, the burn and the refresh of a remove. */
    method PayRemove(holder: Signer, pool: PoolId, tick0: Tick, tick1: Tick, out0: nat, out1: nat, liquidity: nat, height: nat)
      returns (ok: bool)
      requires InStep() && pool in pools && liquidity >= 1
      modifies this, drc20, meme20
      ensures InStep()
      ensures Did(old(State()), Ok([Move(tick0, Reserves(pool), holder, out0),
                                    Move(tick1, Reserves(pool), holder, out1),
                                    BurnFrom(LpTick(pool), holder, liquidity),
                                    Refresh(pool)]), height, ok, State())
    {
      hide Run, Valid, InStep, Reached;
      ghost var d0 := State();
      ghost var script := [Move(tick0, Reserves(pool), holder, out0), Move(tick1, Reserves(pool), holder, out1),
                           BurnFrom(LpTick(pool), holder, liquidity), Refresh(pool)];
      AtStart(d0, script, height);
      ok := Transfer(tick0, Reserves(pool), holder, out0, height, d0, script, 0);
      if !ok { return; }
      ok := Transfer(tick1, Reserves(pool), holder, out1, height, d0, script, 1);
      if !ok { return; }
      ok := BurnToken(LpTick(pool), holder, liquidity, height, d0, script, 2);
      if !ok { return; }
      UpdateLiquidity(pool, height, d0, script, 3);
      AtEnd(d0, script, height);
    }

    /** `SwapRemove` / `SwapV2Remove` behind their guards. */
    method SwapRemove(holder: Signer, pool: PoolId, liquidity: int, height: nat) returns (ok: bool, wdogeOut: nat)
      requires InStep()
      modifies this, drc20, meme20
      ensures InStep()
      ensures Did(old(State()), Scripted(RemovePlan(old(State()), holder, pool, liquidity)), height, ok, State())
      ensures ok ==> PaysOut(RemovePlan(old(State()), holder, pool, liquidity), wdogeOut)
    {
      hide Run, Redeemed, Valid, InStep;
      ok, wdogeOut := false, 0;
      if pool !in pools || liquidity < 1 || liquidity > pools[pool].total { return; }
      var swapl := pools[pool];
      var amt0Out := Redeemed(liquidity, swapl.amt0, swapl.total);
      var amt1Out := Redeemed(liquidity, swapl.amt1, swapl.total);
      if swapl.amt0 < amt0Out || swapl.amt1 < amt1Out { return; }
      wdogeOut := WdogePart(swapl.tick0, amt0Out) + WdogePart(swapl.tick1, amt1Out);
      ok := PayRemove(holder, pool, swapl.tick0, swapl.tick1, amt0Out, amt1Out, liquidity, height);
    }

    /** `SwapExec` / `SwapV2Exec` behind their guards. */
    method SwapExec(hash: string, holder: Signer, pool: PoolId, input: Tick, amt: int, minOut: int, height: nat)
      returns (ok: bool, wdogeOut: nat)
      requires InStep()
      modifies this, drc20, meme20
      ensures InStep()
      ensures Did(old(State()), Scripted(ExecPlan(old(State()), hash, holder, pool, input, amt, minOut, height)), height,
                  ok, State())
      ensures ok ==> PaysOut(ExecPlan(old(State()), hash, holder, pool, input, amt, minOut, height), wdogeOut)
    {
      hide Run, Out, AfterFee, Valid, InStep;
      ok, wdogeOut := false, 0;
      if pool !in pools || amt < 1 || (pool.V1? && minOut < 0) { return; }
      var swapl := pools[pool];
      if input != swapl.tick0 && input != swapl.tick1 { return; }
      if pool.V2? && exists k <- infos :: infos[k] == Info(PairV2, height, holder, true) { return; }
      var tickOut, amtR0, amtR1 := swapl.tick1, swapl.amt0, swapl.amt1;
      if input != swapl.tick0 {
        tickOut, amtR0, amtR1 := swapl.tick0, swapl.amt1, swapl.amt0;
      }
      FeeSmaller(amt);
      var amtout := Out(AfterFee(amt), amtR0, amtR1);
      if amtout < minOut { return; }
      wdogeOut := WdogePart(tickOut, amtout);
      ok := Trade(hash, holder, pool, input, tickOut, amt, amtout, height);
    }

    /** The two transfers and the refresh of a swap; a v2 swap then marks its info row. */
    method Trade(hash: string, holder: Signer, pool: PoolId, tickIn: Tick, tickOut: Tick, amt: int, amtout: nat, height: nat)
      returns (ok: bool)
      requires InStep() && pool in pools
      modifies this, drc20, meme20
      ensures InStep()
      ensures Did(old(State()), Ok([Move(tickIn, holder, Reserves(pool), amt),
                                    Move(tickOut, Reserves(pool), holder, amtout),
                                    Refresh(pool)] + if pool.V2? then [MarkTraded(hash)] else []), height, ok, State())
    {
      hide Run, Valid, InStep, Reached;
      ghost var d0 := State();
      ghost var script := [Move(tickIn, holder, Reserves(pool), amt), Move(tickOut, Reserves(pool), holder, amtout),
                           Refresh(pool)] + if pool.V2? then [MarkTraded(hash)] else [];
      AtStart(d0, script, height);
      ok := Transfer(tickIn, holder, Reserves(pool), amt, height, d0, script, 0);
      if !ok { return; }
      ok := Transfer(tickOut, Reserves(pool), holder, amtout, height, d0, script, 1);
      if !ok { return; }
      UpdateLiquidity(pool, height, d0, script, 2);
      if pool.V2? {
        ok := MarkDone(hash, height, d0, script, 3);
        if !ok { return; }
      }
      AtEnd(d0, script, height);
    }

    /** `order_status = 0` on the transaction's info row. */
    method MarkDone(hash: string, height: nat, ghost d0: Database, ghost script: seq<Step>, ghost k: nat)
      returns (ok: bool)
      requires InStep() && Reached(d0, script, k, height) && k < |script| && script[k] == MarkTraded(hash)
      modifies this`infos
      ensures InStep()
      ensures if ok then Reached(d0, script, k + 1, height) else Run(d0, script, height) == Failed
    {
      hide Run, Means, Logged, Typed;
      NextStep(d0, script, k, height, State());
      ok := hash in infos && infos[hash].height == height && infos[hash].protocol != Consensus;
      if ok {
        infos := infos[hash := infos[hash].(traded := true)];
      }
    }

    // -------------------------------------------------------------------------------------------------------------
    // The pump
    // -------------------------------------------------------------------------------------------------------------

    /** The new amounts of a curve, and the "trade" revert row with the old ones. */
    method UpdateCurve(id: string, amt0: nat, amt1: nat, height: nat, ghost d0: Database, ghost script: seq<Step>,
                       ghost k: nat) returns (ok: bool)
      requires InStep() && Reached(d0, script, k, height) && k < |script| && script[k] == SetCurve(id, amt0, amt1)
      modifies this`curves, this`curveLog
      ensures InStep()
      ensures if ok then Reached(d0, script, k + 1, height) else Run(d0, script, height) == Failed
    {
      hide Run, Means, Logged, Typed;
      NextStep(d0, script, k, height, State());
      ok := id in curves;
      if ok {
        var pumpl := curves[id];
        curveLog := curveLog + [Entry(CurveRevert.Traded(id, pumpl.amt0, pumpl.amt1), height)];
        curves := curves[id := pumpl.(amt0 := amt0, amt1 := amt1)];
      }
    }

    /** The trading fee, and half of it to the inviter. */
    method PayFee(trader: Signer, payer: Party, fee: nat, height: nat, ghost d0: Database, ghost script: seq<Step>,
                  ghost k: nat) returns (ok: bool, ghost next: nat)
      requires InStep() && Reached(d0, script, k, height)
      requires k + |FeeScript(State(), trader, payer, fee)| <= |script|
      requires script[k..k + |FeeScript(State(), trader, payer, fee)|] == FeeScript(State(), trader, payer, fee)
      modifies drc20, meme20
      ensures InStep()
      ensures next == k + |FeeScript(old(State()), trader, payer, fee)|
      ensures if ok then Reached(d0, script, next, height) else Run(d0, script, height) == Failed
    {
      hide Run, Valid, InStep, Reached;
      ghost var fees := FeeScript(State(), trader, payer, fee);
      next := k + |fees|;
      assert script[k] == script[k..k + |fees|][0];
      ok := Transfer(WDOGE, payer, TX_FEE, fee, height, d0, script, k);
      if !ok { return; }
      if trader in inviters {
        assert script[k + 1] == script[k..k + |fees|][1];
        ok := Transfer(WDOGE, TX_FEE, inviters[trader], fee / 2, height, d0, script, k + 1);
      }
    }

    method Buy(trader: Signer, id: string, amt: nat, height: nat) returns (ok: bool)
      requires InStep() && amt > 0 && id in curves
      modifies this, drc20, meme20
      ensures InStep()
      ensures Did(old(State()), Ok(BuyScript(old(State()), trader, id, old(curves[id]), amt)), height, ok, State())
    {
      hide Run, Valid, InStep, Reached, Out;
      var pumpl := curves[id];
      var amtfee0 := amt / 100;
      var amtin := amt - amtfee0;
      OutKeepsProduct(amtin, pumpl.amt1, pumpl.amt0);
      var amtout := Out(amtin, pumpl.amt1, pumpl.amt0);
      ghost var d0, script := State(), BuyScript(State(), trader, id, pumpl, amt);
      AtStart(d0, script, height);
      ghost var k;
      ok, k := PayFee(trader, trader, amtfee0, height, d0, script, 0);
      if !ok { return; }
      ok := Transfer(WDOGE, trader, PumpReserves(id), amtin, height, d0, script, k);
      if !ok { return; }
      ok := Transfer(Meme(id), PumpReserves(id), trader, amtout, height, d0, script, k + 1);
      if !ok { return; }
      ok := UpdateCurve(id, pumpl.amt0 - amtout, pumpl.amt1 + amtin, height, d0, script, k + 2);
      if ok {
        AtEnd(d0, script, height);
      }
    }

    method Sell(trader: Signer, id: string, amt: nat, height: nat) returns (ok: bool)
      requires InStep() && amt > 0 && id in curves
      modifies this, drc20, meme20
      ensures InStep()
      ensures Did(old(State()), Ok(SellScript(old(State()), trader, id, old(curves[id]), amt)), height, ok, State())
    {
      hide Run, Valid, InStep, Reached, Out;
      var pumpl := curves[id];
      OutKeepsProduct(amt, pumpl.amt0, pumpl.amt1);
      var amtout := Out(amt, pumpl.amt0, pumpl.amt1);
      var amtfee1 := amtout / 100;
      ghost var d0, script := State(), SellScript(State(), trader, id, pumpl, amt);
      AtStart(d0, script, height);
      ok := Transfer(Meme(id), trader, PumpReserves(id), amt, height, d0, script, 0);
      if !ok { return; }
      ghost var k;
      ghost var fees := FeeScript(d0, trader, PumpReserves(id), amtfee1);
      assert script[1..1 + |fees|] == fees;
      ok, k := PayFee(trader, PumpReserves(id), amtfee1, height, d0, script, 1);
      if !ok { return; }
      ok := Transfer(WDOGE, PumpReserves(id), trader, amtout - amtfee1, height, d0, script, k);
      if !ok { return; }
      ok := UpdateCurve(id, pumpl.amt0 + amt, pumpl.amt1 - amtout, height, d0, script, k + 1);
      if ok {
        AtEnd(d0, script, height);
      }
    }

    /** `PumpTrade`: trade, then graduate if the real WDOGE has reached the mark. */
    method PumpTrade(hash: string, trader: Signer, id: string, buy: bool, amt: nat, height: nat) returns (ok: bool)
      requires InStep() && amt > 0
      modifies this, drc20, meme20
      ensures InStep()
      ensures if ok then TradeCurve(old(State()), hash, trader, id, buy, amt, height) == Ok(State())
              else TradeCurve(old(State()), hash, trader, id, buy, amt, height) == Failed
    {
      hide Run, BuyScript, SellScript, Finish, Logged, Means, Typed;
      ok := false;
      if id !in curves { return; }
      var creator := curves[id].creator;
      if buy {
        ok := Buy(trader, id, amt, height);
      } else {
        ok := Sell(trader, id, amt, height);
      }
      if !ok { return; }
      var meme := Held(WDOGE, PumpReserves(id));
      if meme >= DOGE_MAX {
        ok := PumpFinish(hash, id, creator, height);
      }
    }

    method PayFinishFees(id: string, creator: Signer, height: nat) returns (ok: bool)
      requires InStep()
      modifies drc20, meme20
      ensures InStep()
      ensures Did(old(State()), Ok(FinishFees(id, creator)), height, ok, State())
    {
      hide Run, Valid, InStep, Reached;
      ghost var d0, script := State(), FinishFees(id, creator);
      AtStart(d0, script, height);
      ok := Transfer(WDOGE, PumpReserves(id), FINISH_FEE, PUMP_FINISH_FEE, height, d0, script, 0);
      if !ok { return; }
      ok := BurnToken(WDOGE, FINISH_FEE, PUMP_FINISH_FEE, height, d0, script, 1);
      if !ok { return; }
      ok := Transfer(WDOGE, PumpReserves(id), creator, PUMP_CREATE_HOLDER_FEE, height, d0, script, 2);
      if !ok { return; }
      ok := BurnToken(WDOGE, creator, PUMP_CREATE_HOLDER_FEE, height, d0, script, 3);
      if !ok { return; }
      AtEnd(d0, script, height);
    }

    /** `PumpFinish`: the two fees are paid and burned, the rest becomes a pool. */
    method PumpFinish(hash: string, id: string, creator: Signer, height: nat) returns (ok: bool)
      requires InStep()
      modifies this, drc20, meme20
      ensures InStep()
      ensures if ok then Finish(old(State()), hash, id, creator, height) == Ok(State())
              else Finish(old(State()), hash, id, creator, height) == Failed
    {
      hide Run, CreateScript, Valid, InStep, FinishFees;
      ok := PayFinishFees(id, creator, height);
      if !ok { return; }
      InStepValid();
      var mca0 := Held(Meme(id), PumpReserves(id));
      var mca1 := Held(WDOGE, PumpReserves(id));
      ok := SwapCreate(PumpReserves(id), V2(hash), Meme(id), WDOGE, mca0, mca1, height);
    }

    lemma InStepValid()
      requires InStep()
      ensures Valid()
    {}

    lemma AtStart(d0: Database, script: seq<Step>, height: nat)
      requires d0 == State()
      ensures Reached(d0, script, 0, height)
    {}

    lemma AtEnd(d0: Database, script: seq<Step>, height: nat)
      requires Reached(d0, script, |script|, height)
      ensures Run(d0, script, height) == Ok(State())
    {
      Finished(d0, script, height, State());
    }

    /** The token, its holders, the curve and the "deploy" revert row. */
    method CreateCurve(id: string, creator: Signer, reserve: nat, height: nat) returns (ok: bool)
      requires InStep()
      modifies this, drc20, meme20
      ensures InStep()
      ensures if ok then OpenCurveIn(old(State()), id, creator, reserve, height) == Ok(State())
              else OpenCurveIn(old(State()), id, creator, reserve, height) == Failed
    {
      hide Means, Logged;
      assert meme20.book.tokens.Keys == meme20.collect.Keys by { SameTicks(meme20.collect, meme20.rows, meme20.book.tokens); }
      ok := false;
      if reserve > 99 || id in curves || Meme(id) in meme20.collect { return; }
      var share := CurveShare(reserve);
      meme20.CreateFunded(Meme(id), MEME_MAX, PumpReserves(id), share, creator, MEME_MAX - share);
      curves := curves[id := Curve(share, DOGE_INIT, creator)];
      curveLog := curveLog + [Entry(Deployed(id), height)];
      ok := true;
    }

    /** `verifyPumpDeploy` and `PumpDeploy`, with the creator's first purchase. */
    method PumpDeploy(hash: string, creator: Signer, reserve: int, firstBuy: int, height: nat) returns (ok: bool)
      requires InStep()
      modifies this, drc20, meme20
      ensures InStep()
      ensures if ok then DeployOrder(old(State()), hash, creator, reserve, firstBuy, height) == Ok(State())
              else DeployOrder(old(State()), hash, creator, reserve, firstBuy, height) == Failed
    {
      hide TradeCurve, OpenCurveIn, Valid, InStep;
      ok := false;
      if reserve < 0 || reserve > 99 || (reserve > 0 && firstBuy > 0) || firstBuy > MAX_FIRST_BUY { return; }
      OneStep(State(), OpenCurve(hash, creator, reserve), height);
      ok := CreateCurve(hash, creator, reserve, height);
      if !ok { return; }
      if firstBuy > 0 {
        ok := PumpTrade(hash, creator, hash, true, firstBuy, height);
      }
    }

    // -------------------------------------------------------------------------------------------------------------
    // Consensus
    // -------------------------------------------------------------------------------------------------------------

    /** `ConsensusStake`: the record, the escrowed CARDI, the revert row. */
    method ConsensusStake(hash: string, holder: Signer, amt: int, height: nat) returns (ok: bool)
      requires InStep()
      modifies this, drc20, meme20
      ensures InStep()
      ensures Did(old(State()), Ok(StakeScript(hash, holder, amt)), height, ok, State())
    {
      hide Run, Means, Logged, Typed;
      ghost var d0, script := State(), StakeScript(hash, holder, amt);
      AtStart(d0, script, height);
      NextStep(d0, script, 0, height, State());
      ok := false;
      if hash in stakes { return; }
      stakes := stakes[hash := Stake(holder, amt, height, Active)];
      stakeLog := stakeLog + [Entry(Staked(hash), height)];
      ok := Transfer(CARDI, holder, Escrow(hash), amt, height, d0, script, 1);
      if ok {
        AtEnd(d0, script, height);
      }
    }

    /** `ConsensusUnstake`: close the record with its score, return the whole amount. */
    method ConsensusUnstake(holder: Signer, id: string, height: nat) returns (ok: bool)
      requires InStep()
      modifies this, drc20, meme20
      ensures InStep()
      ensures Did(old(State()), UnstakeScript(old(State()), holder, id, height), height, ok, State())
    {
      hide Run, Means, Logged, Typed, Score.ScoreByBlocks;
      ok := false;
      if id !in stakes || stakes[id].status != Active || stakes[id].holder != holder { return; }
      var record := stakes[id];
      var scoreVal := Score.ScoreByBlocks(record.amt, height - record.block);
      ghost var d0, script := State(), UnstakeScript(State(), holder, id, height).value;
      AtStart(d0, script, height);
      NextStep(d0, script, 0, height, State());
      stakes := stakes[id := record.(status := Closed(height, scoreVal))];
      stakeLog := stakeLog + [Entry(Unstaked(id), height)];
      ok := Transfer(CARDI, Escrow(id), holder, record.amt, height, d0, script, 1);
      if ok {
        AtEnd(d0, script, height);
      }
    }

    // -------------------------------------------------------------------------------------------------------------
    // Whole transactions
    // -------------------------------------------------------------------------------------------------------------

    /** The tables at the beginning of a database transaction. */
    function Begin(): Backup
      reads this, drc20, meme20
    {
      Backup(drc20.Copy(), meme20.Copy(), pools, poolLog, curves, curveLog, stakes, stakeLog, infos)
    }

    method Rollback(b: Backup, ghost d: Database)
      requires drc20 != meme20 && Restores(b, d) && d.inviters == inviters
      modifies this, drc20, meme20
      ensures InStep() && State() == d
    {
      hide Stands, Typed, Means, Logged;
      drc20.Load(b.drc20, d.drc20);
      meme20.Load(b.meme20, d.meme20);
      pools, poolLog, curves, curveLog := b.pools, b.poolLog, b.curves, b.curveLog;
      stakes, stakeLog, infos := b.stakes, b.stakeLog, b.infos;
    }

    /** A deposit of the router, committed at once. */
    method Deposit(holder: Signer, amt: int, height: nat) returns (ok: bool)
      requires InStep()
      modifies drc20, meme20
      ensures InStep()
      ensures if ok then PayIn(old(State()), holder, amt, height) == Ok(State())
              else PayIn(old(State()), holder, amt, height) == Failed
      ensures !ok ==> State() == old(State())
    {
      hide Run, Valid, InStep, Reached;
      ok := true;
      if amt > 0 {
        ghost var d0, script := State(), [MintTo(WDOGE, holder, amt)];
        AtStart(d0, script, height);
        ok := MintToken(WDOGE, holder, amt, height, d0, script, 0);
        if ok {
          AtEnd(d0, script, height);
        }
      }
    }

    method Withdraw(holder: Signer, amt: nat, height: nat) returns (ok: bool)
      requires InStep()
      modifies drc20, meme20
      ensures InStep()
      ensures if ok then PayOut(old(State()), holder, amt, height) == Ok(State())
              else PayOut(old(State()), holder, amt, height) == Failed
    {
      hide Run, Valid, InStep, Reached;
      ok := true;
      if amt > 0 {
        ghost var d0, script := State(), [BurnFrom(WDOGE, holder, amt)];
        AtStart(d0, script, height);
        ok := BurnToken(WDOGE, holder, amt, height, d0, script, 0);
        if ok {
          AtEnd(d0, script, height);
        }
      }
    }

    /** One order of a pair transaction, and the WDOGE it hands out. */
    method ExecuteOrder(hash: string, holder: Signer, o: PairOrder, height: nat) returns (ok: bool, wdogeOut: nat)
      requires InStep()
      modifies this, drc20, meme20
      ensures InStep()
      ensures if ok then RunOrder(old(State()), hash, holder, o, height) == Ok((State(), wdogeOut))
              else RunOrder(old(State()), hash, holder, o, height) == Failed
    {
      hide Run, CreateScript, AddScript, RemovePlan, ExecPlan, Valid, InStep;
      wdogeOut := 0;
      match o.order {
        case Create(pool, tick0, tick1, amt0, amt1) =>
          ok := SwapCreate(holder, pool, tick0, tick1, amt0, amt1, height);
        case Add(pool, amt0, amt1, min0, min1) =>
          ok := SwapAdd(holder, pool, amt0, amt1, min0, min1, height);
        case Remove(pool, liquidity) =>
          ok, wdogeOut := SwapRemove(holder, pool, liquidity, height);
        case Exec(pool, input, amt, minOut) =>
          ok, wdogeOut := SwapExec(hash, holder, pool, input, amt, minOut, height);
      }
      if !o.doge {
        wdogeOut := 0;
      }
    }

    /** `executePairV1` / `executePairV2`: total the deposits and commit them; then run the orders in one database
        transaction, total what they hand out, and burn it; roll all of that back if anything fails. */
    method ExecutePair(hash: string, holder: Signer, orders: seq<PairOrder>, height: nat)
      requires InStep()
      modifies this, drc20, meme20
      ensures InStep()
      ensures State() == PairTx(old(State()), hash, holder, orders, height)
    {
      hide Run, RunOrder, Deposits, RunOrders, PayIn, PayOut, Valid, InStep, Restores, DepositFor;
      var deposit, known := TotalDeposit(orders);
      if !known { return; }
      var ok := Deposit(holder, deposit, height);
      if !ok { return; }
      ghost var funded := State();
      BeginRestores();
      var backup := Begin();
      var withdraw := 0;
      ok, withdraw := ExecuteOrders(hash, holder, orders, height);
      if ok {
        ok := Withdraw(holder, withdraw, height);
      }
      if !ok {
        Rollback(backup, funded);
      }
    }

    method TotalDeposit(orders: seq<PairOrder>) returns (total: int, ok: bool)
      ensures Deposits(pools, orders) == if ok then Ok(total) else Failed
    {
      hide DepositFor;
      total, ok := 0, true;
      var i := 0;
      assert orders[0..] == orders;
      while i < |orders|
        invariant 0 <= i <= |orders| && ok
        invariant Deposits(pools, orders) == Plus(total, Deposits(pools, orders[i..]))
      {
        assert orders[i..][0] == orders[i] && orders[i..][1..] == orders[i + 1..];
        match DepositFor(pools, orders[i]) {
          case Failed =>
            ok := false;
            return;
          case Ok(amt) => total := total + amt;
        }
        i := i + 1;
      }
      assert orders[i..] == [];
    }

    method ExecuteOrders(hash: string, holder: Signer, orders: seq<PairOrder>, height: nat)
      returns (ok: bool, total: nat)
      requires InStep()
      modifies this, drc20, meme20
      ensures InStep()
      ensures if ok then RunOrders(old(State()), hash, holder, orders, height) == Ok((State(), total))
              else RunOrders(old(State()), hash, holder, orders, height) == Failed
    {
      hide RunOrder, Valid, InStep, State;
      total, ok := 0, true;
      var i := 0;
      assert orders[0..] == orders;
      while i < |orders|
        invariant 0 <= i <= |orders| && ok && InStep()
        invariant RunOrders(old(State()), hash, holder, orders, height) ==
                  MoreOut(RunOrders(State(), hash, holder, orders[i..], height), total)
      {
        assert orders[i..][0] == orders[i] && orders[i..][1..] == orders[i + 1..];
        var out;
        ok, out := ExecuteOrder(hash, holder, orders[i], height);
        if !ok { return; }
        total := total + out;
        i := i + 1;
      }
      assert orders[i..] == [];
    }

    lemma BeginRestores()
      requires InStep()
      ensures Restores(Begin(), State()) && drc20 != meme20
    {}

    /** `executePump`, in the same way. */
    method ExecutePump(hash: string, holder: Signer, o: PumpOrder, height: nat)
      requires InStep()
      modifies this, drc20, meme20
      ensures InStep()
      ensures State() == PumpTx(old(State()), hash, holder, o, height)
    {
      hide Run, TradeOrder, DeployOrder, PayIn, PayOut, Valid, InStep, Restores;
      var ok := Deposit(holder, PumpDeposit(o), height);
      if !ok { return; }
      ghost var funded := State();
      BeginRestores();
      var backup := Begin();
      match o {
        case Deploy(reserve, firstBuy, _) =>
          ok := PumpDeploy(hash, holder, reserve, firstBuy, height);
        case Trade(id, input, amt, doge) =>
          ok := ExecuteTrade(hash, holder, id, input, amt, doge, height);
      }
      if !ok {
        Rollback(backup, funded);
      }
    }

    /** `verifyPumpTrade`, the trade, its mark, and the payout of a sale. */
    method ExecuteTrade(hash: string, trader: Signer, id: string, input: Tick, amt: int, doge: bool, height: nat)
      returns (ok: bool)
      requires InStep()
      modifies this, drc20, meme20
      ensures InStep()
      ensures if ok then TradeOrder(old(State()), hash, trader, id, input, amt, doge, height) == Ok(State())
              else TradeOrder(old(State()), hash, trader, id, input, amt, doge, height) == Failed
    {
      hide Run, TradeCurve, PayOut, Valid, InStep, Reached, SaleProceeds;
      ok := false;
      if amt < 1 || id !in curves { return; }
      if curves[id].amt1 >= CLOSED_AT { return; }
      if exists k <- infos :: infos[k] == Info(Protocol.Pump, height, trader, true) { return; }
      if input != Meme(id) && input != WDOGE { return; }
      var out := if doge && input != WDOGE then SaleProceeds(curves[id], amt) else 0;
      ok := PumpTrade(hash, trader, id, input == WDOGE, amt, height);
      if !ok { return; }
      ghost var d0, script := State(), [MarkTraded(hash)];
      AtStart(d0, script, height);
      ok := MarkDone(hash, height, d0, script, 0);
      if !ok { return; }
      AtEnd(d0, script, height);
      ok := Withdraw(trader, out, height);
    }

    // -------------------------------------------------------------------------------------------------------------
    // Dispatch
    // -------------------------------------------------------------------------------------------------------------

    /** One ledger write in a database transaction of its own. */
    method Commit(s: Step, height: nat)
      requires InStep() && Ledgerly(s) && (s.BurnFrom? ==> s.units >= 1)
      modifies drc20, meme20
      ensures InStep()
      ensures State() == Committed(old(State()), [s], height)
    {
      hide Run, Valid, InStep, Reached;
      var ok;
      ghost var d0, script := State(), [s];
      AtStart(d0, script, height);
      match s {
        case Move(tick, from, to, amt) => ok := Transfer(tick, from, to, amt, height, d0, script, 0);
        case MintTo(tick, to, units) => ok := MintToken(tick, to, units, height, d0, script, 0);
        case BurnFrom(tick, from, units) => ok := BurnToken(tick, from, units, height, d0, script, 0);
      }
      if ok {
        AtEnd(d0, script, height);
      }
    }

    /** `verifyDeploy` and `drc20Deploy`: a row, and no revert row. */
    method Deploy(symbol: string, max: int, lim: int, height: nat)
      requires InStep()
      modifies drc20, meme20
      ensures InStep()
      ensures State() == CommittedIf(old(State()), DeployScript(symbol, max, lim), height)
    {
      hide Means, Logged;
      if |symbol| < 2 || |symbol| > 8 || max < 1 || lim < 1 || max > MAX_NUMBER || lim > MAX_NUMBER || max < lim { return; }
      OneStep(State(), DeployTick(Drc(symbol), max, lim), height);
      var _ := CreateTick(Drc(symbol), max, lim);
    }

    /** `verifyMint` and `drc20Mint`. */
    method Mint(holder: Signer, symbol: string, amt: int, repeat_: int, height: nat)
      requires InStep()
      modifies drc20, meme20
      ensures InStep()
      ensures State() == CommittedIf(old(State()), MintScript(old(State()), holder, symbol, amt, repeat_), height)
    {
      hide Run, Means, Logged;
      CollectMeans(drc20.collect, drc20.rows, drc20.book.tokens);
      if |symbol| < 2 || |symbol| > 8 || Drc(symbol) !in drc20.collect || amt < 1 || repeat_ < 0 { return; }
      var t := drc20.collect[Drc(symbol)];
      if amt > t.lim || t.supply + amt * repeat_ > t.max { return; }
      Commit(MintTo(Drc(symbol), holder, amt * repeat_), height);
    }

    /** Every operation that is one database transaction. */
    method ExecuteSimple(tx: Tx, height: nat)
      requires InStep() && !tx.op.PairV1Op? && !tx.op.PairV2Op? && !tx.op.PumpOp?
      modifies this, drc20, meme20
      ensures InStep()
      ensures State() == CommittedIf(old(State()), SimpleScript(old(State()), tx, height), height)
    {
      hide Run, DeployScript, MintScript, UnstakeScript, StakeScript, Valid, InStep, Restores;
      match tx.op {
        case DeployOp(symbol, max, lim) => Deploy(symbol, max, lim, height);
        case MintOp(symbol, amt, repeat_) => Mint(tx.holder, symbol, amt, repeat_, height);
        case TransferOp(tick, to, amt) =>
          if !tick.Meme? { Commit(Move(tick, tx.holder, to, amt), height); }
        case DepositOp(amt) =>
          if amt >= 1 { Commit(MintTo(WDOGE, tx.holder, amt), height); }
        case WithdrawOp(amt) =>
          if amt >= MIN_WITHDRAW { Commit(BurnFrom(WDOGE, tx.holder, amt), height); }
        case MemeTransferOp(id, to, amt) =>
          if exists k <- infos :: infos[k] == Info(Protocol.Pump, height, tx.holder, true) { return; }
          if exists k <- infos :: infos[k] == Info(PairV2, height, tx.holder, true) { return; }
          Commit(Move(Meme(id), tx.holder, to, amt), height);
        case StakeOp(amt) =>
          ghost var d := State();
          BeginRestores();
          var backup := Begin();
          var ok := ConsensusStake(tx.hash, tx.holder, amt, height);
          if !ok { Rollback(backup, d); }
        case UnstakeOp(id) =>
          ghost var d := State();
          BeginRestores();
          var backup := Begin();
          var ok := ConsensusUnstake(tx.holder, id, height);
          if !ok { Rollback(backup, d); }
      }
    }

    /** One transaction as `scan` takes it: skipped when its hash is on record, else recorded and dispatched. */
    method Execute(tx: Tx, height: nat)
      requires InStep()
      modifies this, drc20, meme20
      ensures InStep()
      ensures State() == ExecuteTx(old(State()), tx, height)
    {
      hide Run, PairTx, PumpTx, SimpleScript, Means, Logged, Typed;
      if tx.hash in infos { return; }
      infos := infos[tx.hash := Info(ProtocolOf(tx.op), height, tx.holder, false)];
      match tx.op {
        case PairV1Op(orders) => ExecutePair(tx.hash, tx.holder, orders, height);
        case PairV2Op(orders) => ExecutePair(tx.hash, tx.holder, orders, height);
        case PumpOp(order) => ExecutePump(tx.hash, tx.holder, order, height);
        case _ => ExecuteSimple(tx, height);
      }
    }

    // -------------------------------------------------------------------------------------------------------------
    // Fork
    // -------------------------------------------------------------------------------------------------------------

    /** One curve revert row: delete a deployed curve with its token, or restore a traded one's amounts. */
    method RevertCurve(e: Entry<CurveRevert>)
      requires Valid()
      modifies this`curves, meme20
      ensures Valid() && meme20.log == old(meme20.log)
      ensures curves == RewindCurves(old(curves), [e])
      ensures meme20.book.tokens == old(meme20.book.tokens) - CurveTicks([e])
      ensures drc20.book == old(drc20.book) && drc20.rows == old(drc20.rows) && drc20.log == old(drc20.log)
      ensures RowsStay(old(meme20.rows), meme20.rows, CurveTicks([e]))
    {
      hide Means, Logged;
      assert [e][..0] == [];
      assert CurveTicks([e]) == if e.row.Deployed? then {Meme(e.row.id)} else {};
      match e.row {
        case Deployed(id) =>
          curves := curves - {id};
          meme20.Delete(Meme(id));
        case Traded(id, amt0, amt1) =>
          if id in curves {
            curves := curves[id := curves[id].(amt0 := amt0, amt1 := amt1)];
          }
      }
    }

    /** `pumpFork`: newest revert row first. */
    method PumpFork(height: nat)
      requires Valid()
      modifies this`curves, meme20
      ensures Valid()
      ensures curves == RewindCurves(old(curves), Above(curveLog, height))
      ensures meme20.book.tokens == old(meme20.book.tokens) - CurveTicks(Above(curveLog, height))
      ensures meme20.log == old(meme20.log)
      ensures drc20.book == old(drc20.book) && drc20.rows == old(drc20.rows) && drc20.log == old(drc20.log)
      ensures RowsStay(old(meme20.rows), meme20.rows, CurveTicks(Above(curveLog, height)))
    {
      hide Valid, CurveTicks, Above, RowsStay, RewindCurves;
      var reverts := Above(curveLog, height);
      var i := |reverts|;
      assert reverts[..i] == reverts && reverts[i..] == [];
      NothingDeployed(meme20.book.tokens, meme20.rows);
      while i > 0
        invariant 0 <= i <= |reverts|
        invariant Valid() && meme20.log == old(meme20.log)
        invariant drc20.book == old(drc20.book) && drc20.rows == old(drc20.rows) && drc20.log == old(drc20.log)
        invariant RewindCurves(curves, reverts[..i]) == RewindCurves(old(curves), reverts)
        invariant meme20.book.tokens == old(meme20.book.tokens) - CurveTicks(reverts[i..])
        invariant RowsStay(old(meme20.rows), meme20.rows, CurveTicks(reverts[i..]))
      {
        i := i - 1;
        assert reverts[..i + 1] == reverts[..i] + [reverts[i]];
        assert reverts[i..] == [reverts[i]] + reverts[i + 1..];
        TicksSplit(reverts[i], reverts[i + 1..]);
        ghost var before, was := meme20.rows, curves;
        RevertCurve(reverts[i]);
        CurveLogRewinds(curves, was, reverts[..i], reverts[i]);
        MinusAll(old(meme20.book.tokens), CurveTicks(reverts[i + 1..]), CurveTicks([reverts[i]]));
        StayAll(old(meme20.rows), before, meme20.rows, CurveTicks(reverts[i + 1..]), CurveTicks([reverts[i]]));
      }
      assert reverts[0..] == reverts && reverts[..0] == [];
      NothingRewound(curves);
    }

    /** A pair's row and its liquidity token. */
    method DeletePair(pool: PoolId)
      requires Valid()
      modifies this`pools, drc20, meme20
      ensures Valid()
      ensures pools == old(pools) - {pool}
      ensures drc20.book.tokens == old(drc20.book.tokens) - {LpTick(pool)} && drc20.log == old(drc20.log)
      ensures meme20.book.tokens == old(meme20.book.tokens) - {LpTick(pool)} && meme20.log == old(meme20.log)
      ensures RowsStay(old(drc20.rows), drc20.rows, {LpTick(pool)})
      ensures RowsStay(old(meme20.rows), meme20.rows, {LpTick(pool)})
    {
      hide Means, Logged;
      pools := pools - {pool};
      if pool.V1? {
        drc20.Delete(LpTick(pool));
      } else {
        meme20.Delete(LpTick(pool));
      }
    }

    /** The deletions of `swapFork` and `swapV2Fork`: the pairs opened above the height, with their liquidity tokens. */
    method DeletePairs(height: nat)
      requires Valid()
      modifies this`pools, drc20, meme20
      ensures Valid()
      ensures pools == old(pools) - Opened(Above(poolLog, height))
      ensures drc20.book.tokens == old(drc20.book.tokens) - LpTicks(Opened(Above(poolLog, height)))
      ensures meme20.book.tokens == old(meme20.book.tokens) - LpTicks(Opened(Above(poolLog, height)))
      ensures drc20.log == old(drc20.log) && meme20.log == old(meme20.log)
      ensures RowsStay(old(drc20.rows), drc20.rows, LpTicks(Opened(Above(poolLog, height))))
      ensures RowsStay(old(meme20.rows), meme20.rows, LpTicks(Opened(Above(poolLog, height))))
    {
      hide Valid, Opened, LpTicks, Above, RowsStay;
      var reverts := Above(poolLog, height);
      var i := |reverts|;
      assert reverts[i..] == [];
      NothingOpened(pools, drc20.book.tokens, meme20.book.tokens, drc20.rows, meme20.rows);
      while i > 0
        invariant 0 <= i <= |reverts|
        invariant Valid() && drc20.log == old(drc20.log) && meme20.log == old(meme20.log)
        invariant pools == old(pools) - Opened(reverts[i..])
        invariant drc20.book.tokens == old(drc20.book.tokens) - LpTicks(Opened(reverts[i..]))
        invariant meme20.book.tokens == old(meme20.book.tokens) - LpTicks(Opened(reverts[i..]))
        invariant RowsStay(old(drc20.rows), drc20.rows, LpTicks(Opened(reverts[i..])))
        invariant RowsStay(old(meme20.rows), meme20.rows, LpTicks(Opened(reverts[i..])))
      {
        i := i - 1;
        assert reverts[i..] == [reverts[i]] + reverts[i + 1..];
        PairsSplit(reverts[i], reverts[i + 1..]);
        ghost var rows20, rowsMeme := drc20.rows, meme20.rows;
        ghost var gone, tick := LpTicks(Opened(reverts[i + 1..])), LpTick(reverts[i].row);
        DeletePair(reverts[i].row);
        MinusAll(old(pools), Opened(reverts[i + 1..]), {reverts[i].row});
        MinusAll(old(drc20.book.tokens), gone, {tick});
        MinusAll(old(meme20.book.tokens), gone, {tick});
        StayAll(old(drc20.rows), rows20, drc20.rows, gone, {tick});
        StayAll(old(meme20.rows), rowsMeme, meme20.rows, gone, {tick});
      }
      assert reverts[0..] == reverts;
    }

    /** One row, from the ledger. */
    method RefreshRow(pool: PoolId)
      requires Valid() && pool in pools
      modifies this`pools
      ensures Valid()
      ensures pools == old(pools)[pool := Refreshed(drc20.book.tokens, meme20.book.tokens, pool, old(pools)[pool])]
    {
      hide Means, Logged, Typed;
      var p := pools[pool];
      var amt0 := Held(p.tick0, Reserves(pool));
      var amt1 := Held(p.tick1, Reserves(pool));
      var total := Supplied(LpTick(pool));
      pools := pools[pool := p.(amt0 := amt0, amt1 := amt1, total := total)];
    }

    /** `UpdateLiquidityFork` / `UpdateV2LiquidityFork`: every row. */
    method UpdateAllLiquidity()
      requires Valid()
      modifies this`pools
      ensures Valid()
      ensures pools == RefreshAll(drc20.book.tokens, meme20.book.tokens, old(pools))
    {
      hide Valid, Refreshed;
      var todo := pools.Keys;
      while todo != {}
        invariant Valid() && todo <= pools.Keys == old(pools.Keys)
        invariant forall id <- todo :: pools[id] == old(pools)[id]
        invariant forall id <- pools.Keys - todo ::
                    pools[id] == Refreshed(drc20.book.tokens, meme20.book.tokens, id, old(pools)[id])
        decreases |todo|
      {
        var pool :| pool in todo;
        RefreshRow(pool);
        todo := todo - {pool};
      }
    }

    /** `consensusFork`: records only, the ledger has already moved the CARDI back. */
    method ConsensusFork(height: nat) returns (ok: bool)
      modifies this`stakes
      ensures ok == RewindStakes(old(stakes), Above(stakeLog, height)).Ok?
      ensures ok ==> RewindStakes(old(stakes), Above(stakeLog, height)) == Ok(stakes)
    {
      var reverts := Above(stakeLog, height);
      var i := |reverts|;
      assert reverts[..i] == reverts;
      while i > 0
        invariant 0 <= i <= |reverts|
        invariant RewindStakes(stakes, reverts[..i]) == RewindStakes(old(stakes), reverts)
      {
        i := i - 1;
        assert reverts[..i + 1][..i] == reverts[..i] && reverts[..i + 1][i] == reverts[i];
        match reverts[i].row {
          case Staked(id) => stakes := stakes - {id};
          case Unstaked(id) =>
            if id !in stakes { return false; }
            stakes := stakes[id := stakes[id].(status := Active)];
        }
      }
      ok := true;
    }

    /** The ledger phases: both undo logs, newest row first. */
    method UndoLedgers(height: nat) returns (ok: bool)
      requires InStep()
      modifies drc20, meme20
      ensures InStep() && drc20.log == old(drc20.log) && meme20.log == old(meme20.log)
      ensures ok == (Rewind(old(drc20.book.tokens), Above(old(drc20.log), height)).Ok?
                     && Rewind(old(meme20.book.tokens), Above(old(meme20.log), height)).Ok?)
      ensures ok ==> Rewind(old(drc20.book.tokens), Above(old(drc20.log), height)) == Ok(drc20.book.tokens)
      ensures ok ==> Rewind(old(meme20.book.tokens), Above(old(meme20.log), height)) == Ok(meme20.book.tokens)
    {
      hide Means, Logged, Rewind, Above, Typed;
      ghost var d := State();
      UndoneTyped(d, height);
      ok := drc20.UndoAbove(height);
      if !ok {
        SameTicks(drc20.collect, drc20.rows, drc20.book.tokens);
        SameTicks(old(drc20.collect), old(drc20.rows), old(drc20.book.tokens));
        return;
      }
      ok := meme20.UndoAbove(height);
      if !ok {
        SameTicks(meme20.collect, meme20.rows, meme20.book.tokens);
        SameTicks(old(meme20.collect), old(meme20.rows), old(meme20.book.tokens));
      }
    }

    /** The curve and pair phases: delete what was created above the height, restore the curves, refresh every cache. */
    method UndoRows(height: nat)
      requires Valid()
      modifies this`curves, this`pools, drc20, meme20
      ensures Valid() && drc20.log == old(drc20.log) && meme20.log == old(meme20.log)
      ensures var pairs, ticks := Opened(Above(poolLog, height)), CurveTicks(Above(curveLog, height));
              && curves == RewindCurves(old(curves), Above(curveLog, height))
              && drc20.book.tokens == old(drc20.book.tokens) - LpTicks(pairs)
              && meme20.book.tokens == old(meme20.book.tokens) - ticks - LpTicks(pairs)
              && pools == RefreshAll(drc20.book.tokens, meme20.book.tokens, old(pools) - pairs)
              && RowsStay(old(drc20.rows), drc20.rows, LpTicks(pairs) + ticks)
              && RowsStay(old(meme20.rows), meme20.rows, LpTicks(pairs) + ticks)
    {
      hide Valid, Above, RewindCurves, RefreshAll, Opened, LpTicks, CurveTicks;
      PumpFork(height);
      DeletePairs(height);
      UpdateAllLiquidity();
    }

    /** `delRevert`. */
    method DeleteReverts(height: nat)
      requires Valid()
      modifies this`poolLog, this`curveLog, this`stakeLog, drc20`log, drc20`book, meme20`log, meme20`book
      ensures Valid()
      ensures drc20.book == Book(old(drc20.book.tokens), Upto(old(drc20.log), height))
      ensures meme20.book == Book(old(meme20.book.tokens), Upto(old(meme20.log), height))
      ensures poolLog == Upto(old(poolLog), height) && curveLog == Upto(old(curveLog), height)
      ensures stakeLog == Upto(old(stakeLog), height)
    {
      hide Means, Logged, Upto, Typed;
      drc20.DeleteLog(height);
      meme20.DeleteLog(height);
      poolLog := Upto(poolLog, height);
      curveLog := Upto(curveLog, height);
      stakeLog := Upto(stakeLog, height);
    }

    /** `fork`, phase by phase. It succeeds exactly when the model's fork does, leaves exactly what that gives, and
        leaves the undo logs in step with the rows when no earlier revert row names a token that the fork deletes. */
    method Fork(height: nat) returns (ok: bool)
      requires InStep()
      modifies this, drc20, meme20
      ensures ok == Db.Fork(old(State()), height).Ok?
      ensures ok ==> Valid() && Db.Fork(old(State()), height) == Ok(State())
      ensures ok && EarlyRowsKept(old(State()), height) ==> InStep()
    {
      hide Means, Logged, Rewind, Above, Upto, RewindCurves, RewindStakes, Typed, RefreshAll, KeptInfos, Opened, LpTicks,
           CurveTicks, RowsStay, EarlyRowsKept;
      ghost var d := State();
      infos := KeptInfos(infos, height);
      ok := UndoLedgers(height);
      if !ok { return; }
      ghost var rows20, rowsMeme := drc20.rows, meme20.rows;
      ghost var collect20, collectMeme := drc20.collect, meme20.collect;
      ghost var tokens20, tokensMeme := drc20.book.tokens, meme20.book.tokens;
      UndoRows(height);
      ok := ConsensusFork(height);
      if !ok { return; }
      DeleteReverts(height);
      if EarlyRowsKept(d, height) {
        StillInStep(d, height, collect20, rows20, tokens20, drc20.collect, drc20.rows, drc20.book.tokens, d.drc20.log);
        StillInStep(d, height, collectMeme, rowsMeme, tokensMeme, meme20.collect, meme20.rows, meme20.book.tokens,
                    d.meme20.log);
      }
    }

    /** `fork` in the database transaction of `forkBack`: all of it or nothing. */
    method ForkOrRollback(height: nat) returns (ok: bool)
      requires InStep() && Ordered(State())
      modifies this, drc20, meme20
      ensures InStep()
      ensures if ok then Db.Fork(old(State()), height) == Ok(State())
              else Db.Fork(old(State()), height) == Failed && State() == old(State())
    {
      hide Db.Fork, InStep, Restores, Ordered, EarlyRowsKept;
      ghost var d := State();
      BeginRestores();
      OrderedKeepsEarlyRows(d, height);
      var backup := Begin();
      ok := Fork(height);
      if !ok {
        Rollback(backup, d);
      }
    }

    /** Every posting of tables in step names a token that exists. */
    lemma InStepLogged()
      requires InStep()
      ensures TicksLogged(State()) && Typed(State().drc20.tokens.Keys, State().meme20.tokens.Keys)
    {
      SameTicks(drc20.collect, drc20.rows, drc20.book.tokens);
      SameTicks(meme20.collect, meme20.rows, meme20.book.tokens);
    }
  }

  /** A script run in a database transaction of its own. */
  function Committed(db: Database, script: seq<Step>, height: nat): Database {
    var r := Run(db, script, height);
    if r.Ok? then r.value else db
  }

  function CommittedIf(db: Database, script: Result<seq<Step>>, height: nat): Database {
    if script.Ok? then Committed(db, script.value, height) else db
  }

  lemma CollectMeans(collect: map<Tick, Collect>, rows: Rows, ts: Tokens)
    requires Means(collect, rows, ts)
    ensures ts.Keys == collect.Keys
    ensures forall t <- ts :: collect[t] == Collect(ts[t].supply, ts[t].max, ts[t].lim)
  {}

  datatype Backup = Backup(
    drc20: TableCopy, meme20: TableCopy,
    pools: map<PoolId, Pool>, poolLog: seq<Entry<PoolId>>,
    curves: map<string, Curve>, curveLog: seq<Entry<CurveRevert>>,
    stakes: map<string, Stake>, stakeLog: seq<Entry<StakeRevert>>,
    infos: map<string, Info>)

  ghost predicate Restores(b: Backup, d: Database) {
    && Stands(b.drc20, d.drc20) && Stands(b.meme20, d.meme20)
    && Typed(d.drc20.tokens.Keys, d.meme20.tokens.Keys)
    && d == Database(d.drc20, d.meme20, b.pools, b.poolLog, b.curves, b.curveLog, b.stakes, b.stakeLog, b.infos, d.inviters)
  }

  function Plus(total: int, r: Result<int>): Result<int> {
    if r.Ok? then Ok(total + r.value) else Failed
  }

  function MoreOut(r: Result<(Database, nat)>, total: nat): Result<(Database, nat)> {
    if r.Ok? then Ok((r.value.0, total + r.value.1)) else Failed
  }

  lemma SameTicks(collect: map<Tick, Collect>, rows: Rows, ts: Tokens)
    requires Means(collect, rows, ts)
    ensures ts.Keys == collect.Keys
  {}

  lemma OneStep(d: Database, s: Step, height: nat)
    ensures Run(d, [s], height) == Apply(d, s, height)
  {
    assert [s][1..] == [];
  }

  /** Deleting the tokens `gone` took no other token's row. */
  ghost predicate RowsStay(before: Rows, after: Rows, gone: set<Tick>) {
    forall k <- before :: k.0 !in gone ==> k in after
  }

  lemma StayAll(a: Rows, b: Rows, c: Rows, gone: set<Tick>, more: set<Tick>)
    requires RowsStay(a, b, gone) && RowsStay(b, c, more)
    ensures RowsStay(a, c, more + gone)
  {}

  lemma MinusAll<K, V>(m: map<K, V>, gone: set<K>, more: set<K>)
    ensures m - gone - more == m - (more + gone)
  {}

  lemma NothingDeployed(ts: Tokens, rows: Rows)
    ensures CurveTicks([]) == {} && ts - {} == ts && RowsStay(rows, rows, {})
  {}

  lemma NothingRewound(curves: map<string, Curve>)
    ensures RewindCurves(curves, []) == curves
  {}

  lemma NothingOpened(pools: map<PoolId, Pool>, a: Tokens, b: Tokens, rowsA: Rows, rowsB: Rows)
    ensures Opened([]) == {} && LpTicks({}) == {}
    ensures pools - {} == pools && a - {} == a && b - {} == b
    ensures RowsStay(rowsA, rowsA, {}) && RowsStay(rowsB, rowsB, {})
  {}

  lemma StillLogged(collect: map<Tick, Collect>, rows: Rows, log: seq<Entry<Posting>>, h: nat,
                    collect2: map<Tick, Collect>, rows2: Rows, gone: set<Tick>)
    requires Logged(collect, rows, log) && collect.Keys - gone <= collect2.Keys && RowsStay(rows, rows2, gone)
    requires forall e <- Upto(log, h) :: e.row.tick !in gone
    ensures Logged(collect2, rows2, Upto(log, h))
  {
    CutLog(log, h);
  }

  lemma StillInStep(d: Database, h: nat, collect: map<Tick, Collect>, rows: Rows, ts: Tokens,
                    collect2: map<Tick, Collect>, rows2: Rows, ts2: Tokens, log: seq<Entry<Posting>>)
    requires Means(collect, rows, ts) && Logged(collect, rows, log) && Means(collect2, rows2, ts2)
    requires EarlyRowsKept(d, h) && (log == d.drc20.log || log == d.meme20.log)
    requires var pairs, ticks := LpTicks(Opened(Above(d.poolLog, h))), CurveTicks(Above(d.curveLog, h));
             (ts2 == ts - pairs || ts2 == ts - ticks - pairs) && RowsStay(rows, rows2, pairs + ticks)
    ensures Logged(collect2, rows2, Upto(log, h))
  {
    hide Means, Logged, Above, Upto, Opened, LpTicks, CurveTicks, RowsStay;
    SameTicks(collect, rows, ts);
    SameTicks(collect2, rows2, ts2);
    var gone := LpTicks(Opened(Above(d.poolLog, h))) + CurveTicks(Above(d.curveLog, h));
    StillLogged(collect, rows, log, h, collect2, rows2, gone);
  }

  lemma TicksSplit(e: Entry<CurveRevert>, rest: seq<Entry<CurveRevert>>)
    ensures CurveTicks([e] + rest) == CurveTicks([e]) + CurveTicks(rest)
  {}

  lemma PairsSplit(e: Entry<PoolId>, rest: seq<Entry<PoolId>>)
    ensures Opened([e] + rest) == {e.row} + Opened(rest)
    ensures LpTicks(Opened([e] + rest)) == {LpTick(e.row)} + LpTicks(Opened(rest))
  {
    assert Opened([e] + rest) == {e.row} + Opened(rest);
  }

  lemma UndoneTyped(d: Database, h: nat)
    requires Typed(d.drc20.tokens.Keys, d.meme20.tokens.Keys)
    ensures Rewind(d.drc20.tokens, Above(d.drc20.log, h)).Ok? ==>
              Rewind(d.drc20.tokens, Above(d.drc20.log, h)).value.Keys == d.drc20.tokens.Keys
    ensures Rewind(d.meme20.tokens, Above(d.meme20.log, h)).Ok? ==>
              Rewind(d.meme20.tokens, Above(d.meme20.log, h)).value.Keys == d.meme20.tokens.Keys
  {
    if Rewind(d.drc20.tokens, Above(d.drc20.log, h)).Ok? {
      RewindKeys(d.drc20.tokens, Above(d.drc20.log, h));
    }
    if Rewind(d.meme20.tokens, Above(d.meme20.log, h)).Ok? {
      RewindKeys(d.meme20.tokens, Above(d.meme20.log, h));
    }
  }

  predicate PaysOut(plan: Result<Plan>, wdogeOut: nat) {
    plan.Ok? && plan.value.wdogeOut == wdogeOut
  }

  function Scripted(plan: Result<Plan>): Result<seq<Step>> {
    if plan.Ok? then Ok(plan.value.script) else Failed
  }

  lemma Verified(held0: nat, held1: nat, p: Pool, amt0: int, amt1: int, min0: int, min1: int)
    requires AddVerified(held0, held1, p, amt0, amt1, min0, min1)
    ensures amt0 >= 1 && amt1 >= 1 && p.amt0 > 0 && p.amt1 > 0
  {}

  lemma FeeSmaller(amt: int)
    requires amt >= 1
    ensures AfterFee(amt) > 0
  {}

  lemma TransferKeys(ts: Tokens, tick: Tick, from: Address, to: Address, amt: int)
    ensures Ledger.Transfer(ts, tick, from, to, amt).Ok? ==>
              Ledger.Transfer(ts, tick, from, to, amt).value.Keys == ts.Keys && amt >= 1
  {}

  lemma MintKeys(ts: Tokens, tick: Tick, to: Address, amt: nat)
    ensures Mint(ts, tick, to, amt).Ok? ==> Mint(ts, tick, to, amt).value.Keys == ts.Keys
  {}

  lemma BurnKeys(ts: Tokens, tick: Tick, from: Address, amt: nat)
    ensures Burn(ts, tick, from, amt).Ok? ==> Burn(ts, tick, from, amt).value.Keys == ts.Keys
  {}
}
