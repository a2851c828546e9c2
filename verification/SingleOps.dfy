/** The operations that are one storage transaction: exactly when each is accepted, and what it then changes. One that
    is not accepted leaves its info row and nothing else. */
module SingleOps {
  import opened Names
  import opened Ledger
  import opened Db
  import opened Swap
  import opened Execute
  import opened Effects
  import opened PoolSafety
  import opened PumpSafety
  import opened Graduation
  import opened Escrows
  import opened Receipts

  /** Only the ledgers changed, by one payment. */
  ghost predicate Pays(d: Database, e: Database, tick: Tick, from: Address, to: Address, amt: int) {
    && (forall t, a :: Bal(e, t, a) == Bal(d, t, a) + Paid(t, a, tick, from, to, amt))
    && (forall t :: Issued(e, t) == Issued(d, t))
    && OnlyLedgers(d, e)
  }

  /** Only the ledgers changed, by `units` issued to `to`, or taken back when negative. */
  ghost predicate Issues(d: Database, e: Database, tick: Tick, to: Address, units: int) {
    && (forall t, a :: Bal(e, t, a) == Bal(d, t, a) + if t == tick && a == to then units else 0)
    && (forall t :: Issued(e, t) == Issued(d, t) + if t == tick then units else 0)
    && OnlyLedgers(d, e)
  }

  ghost predicate OnlyLedgers(d: Database, e: Database) {
    && e == d.(drc20 := e.drc20, meme20 := e.meme20)
    && e.drc20.tokens.Keys == d.drc20.tokens.Keys && e.meme20.tokens.Keys == d.meme20.tokens.Keys
  }

  lemma PayStep(d: Database, s: Step, height: nat)
    requires s.Move? && Apply(d, s, height).Ok?
    ensures Pays(d, Apply(d, s, height).value, s.tick, s.from, s.to, s.amt)
  {
    hide Apply, Bal, Issued;
    var e := Apply(d, s, height).value;
    LedgerlyStep(d, s, height);
    forall t: Tick, a: Address
      ensures Bal(e, t, a) == Bal(d, t, a) + Paid(t, a, s.tick, s.from, s.to, s.amt)
    {
      StepEffect(d, s, height, t, a);
    }
    forall t: Tick
      ensures Issued(e, t) == Issued(d, t)
    {
      StepEffect(d, s, height, t, s.from);
    }
  }

  lemma IssueStep(d: Database, s: Step, height: nat)
    requires (s.MintTo? || s.BurnFrom?) && Apply(d, s, height).Ok?
    ensures Issues(d, Apply(d, s, height).value, s.tick, if s.MintTo? then s.to else s.from,
                   if s.MintTo? then s.units else 0 - s.units)
  {
    hide Apply, Bal, Issued;
    var e := Apply(d, s, height).value;
    LedgerlyStep(d, s, height);
    forall t: Tick, a: Address
      ensures Bal(e, t, a) == Bal(d, t, a) + if t == s.tick && a == (if s.MintTo? then s.to else s.from)
                                             then (if s.MintTo? then s.units else 0 - s.units) else 0
    {
      StepEffect(d, s, height, t, a);
    }
    forall t: Tick
      ensures Issued(e, t) == Issued(d, t) + if t == s.tick then (if s.MintTo? then s.units else 0 - s.units) else 0
    {
      StepEffect(d, s, height, t, Nobody);
    }
  }

  lemma OneStep(d: Database, s: Step, height: nat)
    ensures Run(d, [s], height) == Apply(d, s, height)
  {
    hide Apply;
    assert [s] == [s] + [];
    RunFirst(d, s, [], height);
  }

  /** A deploy is accepted if and only if its symbol has two to eight characters and is new, and a mint's limit is
      within the maximum; then the tick exists, with nothing issued. */
  lemma DeployTickTx(d: Database, tx: Tx, height: nat)
    requires tx.op.DeployOp? && tx.hash !in d.infos
    ensures var r, e, o := Recorded(d, tx, height), ExecuteTx(d, tx, height), tx.op;
            if 2 <= |o.symbol| <= 8 && 1 <= o.lim <= o.max <= MAX_NUMBER && Drc(o.symbol) !in d.drc20.tokens then
              e == r.(drc20 := r.drc20.(tokens := r.drc20.tokens[Drc(o.symbol) := Token(0, o.max, o.lim, multiset{})]))
            else e == r
  {
    var r := Recorded(d, tx, height);
    if DeployScript(tx.op.symbol, tx.op.max, tx.op.lim).Ok? {
      OneStep(r, DeployTick(Drc(tx.op.symbol), tx.op.max, tx.op.lim), height);
    }
  }

  lemma SameBalances(d: Database, tx: Tx, height: nat)
    ensures forall t, a :: Bal(Recorded(d, tx, height), t, a) == Bal(d, t, a)
    ensures forall t :: Issued(Recorded(d, tx, height), t) == Issued(d, t)
  {}

  /** A mint is accepted if and only if its tick exists, each repetition is within the limit, and all of them together
      stay within the maximum; then the holder gets them all. */
  lemma MintTx(d: Database, tx: Tx, height: nat)
    requires tx.op.MintOp? && tx.hash !in d.infos
    ensures var r, e, o := Recorded(d, tx, height), ExecuteTx(d, tx, height), tx.op;
            var tick := Drc(o.symbol);
            if 2 <= |o.symbol| <= 8 && tick in d.drc20.tokens && 1 <= o.amt <= d.drc20.tokens[tick].lim && o.repeat_ >= 0
               && Issued(d, tick) + o.amt * o.repeat_ <= d.drc20.tokens[tick].max
            then Issues(r, e, tick, tx.holder, o.amt * o.repeat_)
            else e == r
  {
    hide Apply, Issues;
    var r, o := Recorded(d, tx, height), tx.op;
    if MintScript(r, tx.holder, o.symbol, o.amt, o.repeat_).Ok? {
      var s := MintTo(Drc(o.symbol), tx.holder, o.amt * o.repeat_);
      OneStep(r, s, height);
      MintGoes(r, s.tick, tx.holder, s.units, height);
      IssueStep(r, s, height);
    }
  }

  /** A drc-20 transfer is accepted if and only if it pays somebody else an amount that the holder has. */
  lemma TransferTx(d: Database, tx: Tx, height: nat)
    requires tx.op.TransferOp? && tx.hash !in d.infos
    ensures var r, e, o := Recorded(d, tx, height), ExecuteTx(d, tx, height), tx.op;
            if !o.tick.Meme? && o.to != tx.holder && 1 <= o.amt <= Bal(d, o.tick, tx.holder)
            then Pays(r, e, o.tick, tx.holder, o.to, o.amt)
            else e == r
  {
    hide Apply, Pays, Bal;
    var r, o := Recorded(d, tx, height), tx.op;
    SameBalances(d, tx, height);
    var s := Move(o.tick, tx.holder, o.to, o.amt);
    OneStep(r, s, height);
    MoveGoes(r, o.tick, tx.holder, o.to, o.amt, height);
    if Apply(r, s, height).Ok? {
      PayStep(r, s, height);
    }
  }

  /** A meme-20 transfer is, besides, refused to a holder who has completed a pump trade or a v2 swap in the same block.
      */
  lemma MemeTransferTx(d: Database, tx: Tx, height: nat)
    requires tx.op.MemeTransferOp? && tx.hash !in d.infos
    ensures var r, e, o := Recorded(d, tx, height), ExecuteTx(d, tx, height), tx.op;
            if FirstToday(d, Protocol.Pump, tx.holder, height) && FirstToday(d, PairV2, tx.holder, height)
               && o.to != tx.holder && 1 <= o.amt <= Bal(d, Meme(o.id), tx.holder)
            then Pays(r, e, Meme(o.id), tx.holder, o.to, o.amt)
            else e == r
  {
    hide Apply, Pays, Bal;
    var r, o := Recorded(d, tx, height), tx.op;
    SameBalances(d, tx, height);
    RecordedToday(d, tx, height);
    var s := Move(Meme(o.id), tx.holder, o.to, o.amt);
    OneStep(r, s, height);
    MoveGoes(r, s.tick, tx.holder, o.to, o.amt, height);
    if Apply(r, s, height).Ok? {
      PayStep(r, s, height);
    }
  }

  lemma RecordedToday(d: Database, tx: Tx, height: nat)
    requires tx.hash !in d.infos
    ensures forall p, a, h :: FirstToday(Recorded(d, tx, height), p, a, h) <==> FirstToday(d, p, a, h)
    ensures forall p, a, h :: TradedAlready(Recorded(d, tx, height), p, a, h) <==> !FirstToday(d, p, a, h)
  {
    var r := Recorded(d, tx, height);
    forall p, a, h
      ensures FirstToday(r, p, a, h) <==> FirstToday(d, p, a, h)
    {
      if FirstToday(d, p, a, h) {
        forall k | k in r.infos
          ensures r.infos[k] != Info(p, h, a, true)
        {
          if k in d.infos {
            assert d.infos[k] != Info(p, h, a, true);
          }
        }
      }
      if FirstToday(r, p, a, h) {
        forall k | k in d.infos
          ensures d.infos[k] != Info(p, h, a, true)
        {
          assert r.infos[k] != Info(p, h, a, true);
        }
      }
    }
  }

  /** A deposit issues the holder WDOGE for the coins. */
  lemma DepositTx(d: Database, tx: Tx, height: nat)
    requires tx.op.DepositOp? && tx.hash !in d.infos
    ensures var r, e := Recorded(d, tx, height), ExecuteTx(d, tx, height);
            if tx.op.amt >= 1 && WDOGE in d.drc20.tokens then Issues(r, e, WDOGE, tx.holder, tx.op.amt) else e == r
  {
    hide Apply, Issues;
    var r := Recorded(d, tx, height);
    if tx.op.amt >= 1 {
      var s := MintTo(WDOGE, tx.holder, tx.op.amt);
      OneStep(r, s, height);
      MintGoes(r, WDOGE, tx.holder, tx.op.amt, height);
      if Apply(r, s, height).Ok? {
        IssueStep(r, s, height);
      }
    }
  }

  /** A withdrawal takes back WDOGE that the holder has, from one whole coin on. */
  lemma WithdrawTx(d: Database, tx: Tx, height: nat)
    requires tx.op.WithdrawOp? && tx.hash !in d.infos && ConservedAll(d)
    ensures var r, e := Recorded(d, tx, height), ExecuteTx(d, tx, height);
            if 100000000 <= tx.op.amt <= Bal(d, WDOGE, tx.holder) then Issues(r, e, WDOGE, tx.holder, 0 - tx.op.amt) else e == r
  {
    hide Apply, Issues, Bal, ConservedAll;
    var r := Recorded(d, tx, height);
    SameBalances(d, tx, height);
    SameConserved(d, tx, height);
    if tx.op.amt >= MIN_WITHDRAW {
      var s := BurnFrom(WDOGE, tx.holder, tx.op.amt);
      OneStep(r, s, height);
      BurnIff(r, WDOGE, tx.holder, tx.op.amt, height);
      if Apply(r, s, height).Ok? {
        IssueStep(r, s, height);
      }
    }
  }

  lemma SameConserved(d: Database, tx: Tx, height: nat)
    requires ConservedAll(d)
    ensures ConservedAll(Recorded(d, tx, height))
  {}

  /** A consensus stake is accepted if and only if the holder has the amount; then it is on record under the
      transaction's name, from this block on, and at the record's own address. */
  lemma StakeTx(d: Database, tx: Tx, height: nat)
    requires tx.op.StakeOp? && tx.hash !in d.infos
    ensures var r, e, amt := Recorded(d, tx, height), ExecuteTx(d, tx, height), tx.op.amt;
            if tx.hash !in d.stakes && 1 <= amt <= Bal(d, CARDI, tx.holder) then
              && e.stakes == d.stakes[tx.hash := Stake(tx.holder, amt, height, Active)]
              && Pays(r.(stakes := e.stakes, stakeLog := e.stakeLog), e, CARDI, tx.holder, Escrow(tx.hash), amt)
            else e == r
  {
    hide Apply, Pays, Bal;
    var r, amt := Recorded(d, tx, height), tx.op.amt;
    SameBalances(d, tx, height);
    var open_, pay := OpenStake(tx.hash, tx.holder, amt), Move(CARDI, tx.holder, Escrow(tx.hash), amt);
    assert StakeScript(tx.hash, tx.holder, amt) == [open_] + ([pay] + []);
    RunFirst(r, open_, [pay] + [], height);
    StakeOpens(r, tx.hash, tx.holder, amt, height);
    if Apply(r, open_, height).Ok? {
      var mid := Apply(r, open_, height).value;
      RunFirst(mid, pay, [], height);
      MoveGoes(mid, CARDI, tx.holder, Escrow(tx.hash), amt, height);
      if Apply(mid, pay, height).Ok? {
        PayStep(mid, pay, height);
        LedgerlyStep(mid, pay, height);
      }
    }
  }

  lemma StakeOpens(d: Database, id: string, holder: Signer, amt: int, height: nat)
    ensures var r := Apply(d, OpenStake(id, holder, amt), height);
            && (r.Ok? <==> id !in d.stakes)
            && (r.Ok? ==> && r.value.stakes == d.stakes[id := Stake(holder, amt, height, Active)]
                          && r.value == d.(stakes := r.value.stakes, stakeLog := r.value.stakeLog)
                          && forall t, a :: Bal(r.value, t, a) == Bal(d, t, a))
  {}

  /** A consensus unstake is accepted from the record's own staker while it is active; the whole amount comes back and
      nothing else moves. */
  lemma UnstakeTx(d: Database, tx: Tx, height: nat)
    requires tx.op.UnstakeOp? && tx.hash !in d.infos && EscrowInv(d, tx.op.stakeId)
    ensures var r, e, id := Recorded(d, tx, height), ExecuteTx(d, tx, height), tx.op.stakeId;
            if Staking(d, id) && d.stakes[id].holder == tx.holder then
              && id in e.stakes && e.stakes == d.stakes[id := d.stakes[id].(status := e.stakes[id].status)]
              && e.stakes[id].status.Closed? && e.stakes[id].status.block == height
              && ScoredFor(e.stakes[id].status.score, d.stakes[id].amt, height - d.stakes[id].block)
              && Pays(r.(stakes := e.stakes, stakeLog := e.stakeLog), e, CARDI, Escrow(id), tx.holder, d.stakes[id].amt)
            else e == r
  {
    hide Apply, Pays, Bal, Run, ScoredFor, EscrowInv;
    var r, id := Recorded(d, tx, height), tx.op.stakeId;
    SameBalances(d, tx, height);
    RecordedEscrow(d, tx, height, id);
    UnstakeIff(r, tx.holder, id, height);
    if Staking(d, id) && d.stakes[id].holder == tx.holder {
      var script := UnstakeScript(r, tx.holder, id, height).value;
      assert script == [script[0]] + ([script[1]] + []);
      RunFirst(r, script[0], [script[1]] + [], height);
      StakeCloses(r, id, script[0].score, height);
      var mid := Apply(r, script[0], height).value;
      RunFirst(mid, script[1], [], height);
      RunEmpty(Apply(mid, script[1], height).value, height);
      PayStep(mid, script[1], height);
      LedgerlyStep(mid, script[1], height);
      SameButStakes(r, mid, Apply(mid, script[1], height).value);
    }
  }

  lemma RecordedEscrow(d: Database, tx: Tx, height: nat, id: string)
    requires EscrowInv(d, id)
    ensures EscrowInv(Recorded(d, tx, height), id)
  {}

  lemma StakeCloses(d: Database, id: string, score: nat, height: nat)
    requires Apply(d, CloseStake(id, score), height).Ok?
    ensures var m := Apply(d, CloseStake(id, score), height).value; m == d.(stakes := m.stakes, stakeLog := m.stakeLog)
  {}

  lemma SameButStakes(r: Database, mid: Database, e: Database)
    requires mid == r.(stakes := mid.stakes, stakeLog := mid.stakeLog)
    requires e == mid.(drc20 := e.drc20, meme20 := e.meme20)
    ensures mid == r.(stakes := e.stakes, stakeLog := e.stakeLog)
  {}
}
