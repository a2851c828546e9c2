/** The consensus stake machine: what backs a record, when it is released, and what a fork does to it. */
module Escrows {
  import opened Results
  import opened Names
  import opened Db
  import opened Swap
  import opened Pump
  import opened Execute
  import opened Rollback
  import opened Dispatching
  import opened Effects
  import opened PumpSafety
  import Score

  predicate Staking(d: Database, id: string) {
    id in d.stakes && d.stakes[id].status.Active?
  }

  /** The escrow address of an active record holds at least its amount. */
  ghost predicate EscrowInv(d: Database, id: string) {
    Staking(d, id) ==> 1 <= d.stakes[id].amt <= Bal(d, CARDI, Escrow(id))
  }

  /** From one state to a later one: a record stays, keeps its holder, amount and block, and never re-opens; and its
      escrow is drained only by closing it, by its amount. */
  ghost predicate EscrowKept(d: Database, d': Database, id: string) {
    id in d.stakes ==>
      && id in d'.stakes
      && d'.stakes[id] == d.stakes[id].(status := d'.stakes[id].status)
      && (d.stakes[id].status != Active ==> d'.stakes[id] == d.stakes[id])
      && Bal(d', CARDI, Escrow(id)) >= Bal(d, CARDI, Escrow(id)) - Released(d, d', id)
  }

  /** What the record released between the two states. */
  function Released(d: Database, d': Database, id: string): int
    requires id in d.stakes && id in d'.stakes
  {
    if d.stakes[id].status.Active? && !d'.stakes[id].status.Active? then d.stakes[id].amt else 0
  }

  ghost predicate EscrowKeeps(d: Database, d': Database, id: string) {
    EscrowInv(d', id) && EscrowKept(d, d', id)
  }

  lemma EscrowTrans(a: Database, b: Database, c: Database, id: string)
    requires EscrowKeeps(a, b, id) && EscrowKeeps(b, c, id)
    ensures EscrowKeeps(a, c, id)
  {}

  lemma EscrowSelf(d: Database, id: string)
    requires EscrowInv(d, id)
    ensures EscrowKeeps(d, d, id)
  {}

  // ---------------------------------------------------------------------------------------------------------------
  // Writes
  // ---------------------------------------------------------------------------------------------------------------

  /** The write takes nothing from the escrow and leaves the record alone. */
  predicate EscrowSpares(s: Step, id: string) {
    match s
    case Move(_, from, _, _) => from != Escrow(id)
    case BurnFrom(_, from, _) => from != Escrow(id)
    case OpenStake(other, _, _) => other != id
    case CloseStake(other, _) => other != id
    case _ => true
  }

  lemma SparedStake(d: Database, s: Step, height: nat, id: string)
    requires Apply(d, s, height).Ok? && EscrowSpares(s, id)
    ensures var d' := Apply(d, s, height).value;
            && (id in d'.stakes <==> id in d.stakes)
            && (id in d.stakes ==> d'.stakes[id] == d.stakes[id])
            && Bal(d', CARDI, Escrow(id)) >= Bal(d, CARDI, Escrow(id))
  {
    hide TransferIn, MintIn, BurnIn, CurveToken, Refreshed, Bal;
    StepEffect(d, s, height, CARDI, Escrow(id));
    assert Delta(s, CARDI, Escrow(id)) >= 0 by { SparedDelta(d, s, height, id); }
    if Ledgerly(s) {
      LedgerlyStep(d, s, height);
    }
  }

  lemma SparedDelta(d: Database, s: Step, height: nat, id: string)
    requires Apply(d, s, height).Ok? && EscrowSpares(s, id)
    ensures Delta(s, CARDI, Escrow(id)) >= 0
  {
    hide Apply;
    MoveNeeds(d, s, height);
  }

  lemma {:induction false} RunEscrowSpares(d: Database, script: seq<Step>, height: nat, id: string)
    requires Run(d, script, height).Ok? && EscrowInv(d, id) && forall s <- script :: EscrowSpares(s, id)
    ensures EscrowKeeps(d, Run(d, script, height).value, id)
    ensures id in Run(d, script, height).value.stakes <==> id in d.stakes
    ensures id in d.stakes ==> Run(d, script, height).value.stakes[id] == d.stakes[id]
    decreases |script|
  {
    hide Apply, EscrowSpares, Bal;
    if script != [] {
      SparedStake(d, script[0], height, id);
      RunEscrowSpares(Apply(d, script[0], height).value, script[1..], height, id);
    }
  }

  lemma OthersSpare(op: Op, script: seq<Step>, id: string)
    requires AllPermitted(op, script) && !op.StakeOp? && op != UnstakeOp(id)
    ensures forall s <- script :: EscrowSpares(s, id)
  {}

  // ---------------------------------------------------------------------------------------------------------------
  // Stake and unstake
  // ---------------------------------------------------------------------------------------------------------------

  lemma StakeKeeps(d: Database, hash: string, holder: Signer, amt: int, height: nat, id: string)
    requires EscrowInv(d, id) && Run(d, StakeScript(hash, holder, amt), height).Ok?
    ensures EscrowKeeps(d, Run(d, StakeScript(hash, holder, amt), height).value, id)
  {
    hide Run, Apply, Bal;
    var script := StakeScript(hash, holder, amt);
    if id != hash {
      RunEscrowSpares(d, script, height, id);
    } else {
      assert script == [script[0]] + ([script[1]] + []);
      RunFirst(d, script[0], [script[1]] + [], height);
      var mid := Apply(d, script[0], height).value;
      RunFirst(mid, script[1], [], height);
      RunEmpty(Apply(mid, script[1], height).value, height);
      StepEffect(mid, script[1], height, CARDI, Escrow(id));
      MoveNeeds(mid, script[1], height);
      StakeRow(d, hash, holder, amt, height);
      LedgerlyStep(mid, script[1], height);
    }
  }

  lemma RunEmpty(d: Database, height: nat)
    ensures Run(d, [], height) == Ok(d)
  {}

  lemma StakeRow(d: Database, hash: string, holder: Signer, amt: int, height: nat)
    requires Apply(d, OpenStake(hash, holder, amt), height).Ok?
    ensures hash !in d.stakes
    ensures Apply(d, OpenStake(hash, holder, amt), height).value.stakes == d.stakes[hash := Stake(holder, amt, height, Active)]
  {}

  /** The score a record of `amt` closes with after `blocks` blocks: the amount times the scaled logarithm, rounded
      down. */
  predicate ScoredFor(score: nat, amt: int, blocks: int) {
    if blocks <= 0 then score == 0
    else Score.SCALE * score <= amt * Score.LnScaled(1 + blocks) < Score.SCALE * (score + 1)
  }

  lemma ScoredIs(amt: int, blocks: int)
    requires amt >= 1
    ensures ScoredFor(Score.ScoreByBlocks(amt, blocks), amt, blocks)
  {
    Score.ScoreIs(amt, blocks);
  }

  /** An unstake is accepted if and only if the record is active and the sender is its staker: the escrow can never lack
      the funds. Then the record is closed with the score of its amount over its blocks, and its whole amount moves to
      the staker. */
  lemma UnstakeIff(d: Database, holder: Signer, id: string, height: nat)
    requires EscrowInv(d, id)
    ensures (UnstakeScript(d, holder, id, height).Ok? && Run(d, UnstakeScript(d, holder, id, height).value, height).Ok?) <==>
            Staking(d, id) && d.stakes[id].holder == holder
    ensures Staking(d, id) && d.stakes[id].holder == holder ==>
              var f := Run(d, UnstakeScript(d, holder, id, height).value, height).value;
              && id in f.stakes
              && f.stakes == d.stakes[id := d.stakes[id].(status := f.stakes[id].status)]
              && f.stakes[id].status.Closed? && f.stakes[id].status.block == height
              && ScoredFor(f.stakes[id].status.score, d.stakes[id].amt, height - d.stakes[id].block)
              && Bal(f, CARDI, Escrow(id)) == Bal(d, CARDI, Escrow(id)) - d.stakes[id].amt
              && Bal(f, CARDI, holder) == Bal(d, CARDI, holder) + d.stakes[id].amt
  {
    hide Run, Apply, Bal, Score.ScoreByBlocks, ScoredFor;
    if Staking(d, id) && d.stakes[id].holder == holder {
      var script := UnstakeScript(d, holder, id, height).value;
      assert script == [script[0]] + ([script[1]] + []);
      RunFirst(d, script[0], [script[1]] + [], height);
      CloseGoes(d, id, script[0].score, height);
      ScoredIs(d.stakes[id].amt, height - d.stakes[id].block);
      var mid := Apply(d, script[0], height).value;
      RunFirst(mid, script[1], [], height);
      StepEffect(d, script[0], height, CARDI, Escrow(id));
      StepEffect(d, script[0], height, CARDI, holder);
      MoveGoes(mid, CARDI, Escrow(id), holder, d.stakes[id].amt, height);
      RunEmpty(Apply(mid, script[1], height).value, height);
      StepEffect(mid, script[1], height, CARDI, Escrow(id));
      StepEffect(mid, script[1], height, CARDI, holder);
      LedgerlyStep(mid, script[1], height);
    }
  }

  lemma CloseGoes(d: Database, id: string, score: nat, height: nat)
    requires Staking(d, id)
    ensures Apply(d, CloseStake(id, score), height).Ok?
    ensures Apply(d, CloseStake(id, score), height).value.stakes ==
            d.stakes[id := d.stakes[id].(status := Closed(height, score))]
  {}

  lemma UnstakeKeeps(d: Database, holder: Signer, id: string, height: nat)
    requires EscrowInv(d, id) && UnstakeScript(d, holder, id, height).Ok?
    requires Run(d, UnstakeScript(d, holder, id, height).value, height).Ok?
    ensures EscrowKeeps(d, Run(d, UnstakeScript(d, holder, id, height).value, height).value, id)
  {
    hide Run, UnstakeScript, Bal;
    UnstakeIff(d, holder, id, height);
  }

  // ---------------------------------------------------------------------------------------------------------------
  // Whole runs
  // ---------------------------------------------------------------------------------------------------------------

  lemma DispatchEscrow(d: Database, tx: Tx, height: nat, id: string)
    requires EscrowInv(d, id)
    ensures EscrowKeeps(d, Dispatch(d, tx, height), id)
  {
    hide PairTx, PumpTx, Run, StakeScript, UnstakeScript, EscrowKept, EscrowInv;
    EscrowSelf(d, id);
    if tx.op.StakeOp? {
      if Run(d, StakeScript(tx.hash, tx.holder, tx.op.amt), height).Ok? {
        StakeKeeps(d, tx.hash, tx.holder, tx.op.amt, height, id);
      }
    } else if tx.op == UnstakeOp(id) {
      if UnstakeScript(d, tx.holder, id, height).Ok? && Run(d, UnstakeScript(d, tx.holder, id, height).value, height).Ok? {
        UnstakeKeeps(d, tx.holder, id, height);
      }
    } else {
      var script := DispatchIsRun(d, tx, height);
      OthersSpare(tx.op, script, id);
      RunEscrowSpares(d, script, height, id);
    }
  }

  lemma ExecuteEscrow(d: Database, tx: Tx, height: nat, id: string)
    requires EscrowInv(d, id)
    ensures EscrowKeeps(d, ExecuteTx(d, tx, height), id)
  {
    hide Dispatch;
    EscrowSelf(d, id);
    if tx.hash !in d.infos {
      DispatchEscrow(Recorded(d, tx, height), tx, height, id);
    }
  }

  /** Over any block, with any transfers: every active record stays fully backed, a stake is released at most once, in
      full, and nothing else ever leaves an escrow address. */
  lemma {:induction false} BlockEscrows(d: Database, txs: seq<Tx>, height: nat, id: string)
    requires EscrowInv(d, id)
    ensures EscrowKeeps(d, ExecuteAll(d, txs, height), id)
    decreases |txs|
  {
    hide ExecuteTx, EscrowInv, EscrowKept;
    if txs == [] {
      EscrowSelf(d, id);
    } else {
      ExecuteEscrow(d, txs[0], height, id);
      BlockEscrows(ExecuteTx(d, txs[0], height), txs[1..], height, id);
      EscrowTrans(d, ExecuteTx(d, txs[0], height), ExecuteAll(d, txs, height), id);
    }
  }

  /** So over any number of blocks, as long as no fork comes between. */
  lemma {:induction false} StagesEscrows(d: Database, stages: seq<Stage>, id: string)
    requires EscrowInv(d, id)
    ensures EscrowKeeps(d, Advance(d, stages), id)
    decreases |stages|
  {
    hide ExecuteAll, EscrowInv, EscrowKept;
    if stages == [] {
      EscrowSelf(d, id);
    } else {
      var mid := ExecuteAll(d, stages[0].txs, stages[0].height);
      BlockEscrows(d, stages[0].txs, stages[0].height, id);
      StagesEscrows(mid, stages[1..], id);
      EscrowTrans(d, mid, Advance(d, stages), id);
    }
  }

  /** A stake is released at most once: whichever block closes a record, in no later block does it open again or release
      anything, and what its address still holds then can only grow. */
  lemma SingleRelease(d: Database, before: seq<Stage>, after: seq<Stage>, id: string)
    requires EscrowInv(d, id) && Staking(d, id)
    ensures var e, g := Advance(d, before), Advance(d, before + after);
            && id in e.stakes && id in g.stakes
            && Released(d, e, id) + Released(e, g, id) == Released(d, g, id) <= d.stakes[id].amt
            && Bal(g, CARDI, Escrow(id)) >= Bal(e, CARDI, Escrow(id)) - Released(e, g, id)
            && (!Staking(e, id) ==>
                  && g.stakes[id] == e.stakes[id]
                  && Released(e, g, id) == 0
                  && Bal(g, CARDI, Escrow(id)) >= Bal(e, CARDI, Escrow(id)))
  {
    hide Advance, Bal;
    AdvanceAppend(d, before, after);
    StagesEscrows(d, before, id);
    StagesEscrows(Advance(d, before), after, id);
  }

  /** A fork restores a record and its escrow together: the record phase does not move the CARDI a second time. */
  lemma ForkEscrow(s: Database, d: Database, h: nat, id: string)
    requires Tracks(s, d, h) && EscrowInv(s, id)
    ensures Fork(d, h).Ok?
    ensures var f := Fork(d, h).value;
            && f.stakes == s.stakes
            && EscrowInv(f, id)
            && (CARDI in s.drc20.tokens ==> forall a :: Bal(f, CARDI, a) == Bal(s, CARDI, a))
  {
    hide Tracks, Fork;
    ForkRestores(s, d, h);
  }
}
