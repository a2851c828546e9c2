/** What one write does to one balance and to one supply. */
module Effects {
  import opened Names
  import opened Ledger
  import opened Db

  function Gain(tick: Tick, a: Address, t: Tick, to: Address, amt: int): int {
    if t == tick && a == to then amt else 0
  }

  /** The change of `a`'s balance in `t`. */
  function Delta(s: Step, t: Tick, a: Address): int {
    match s
    case Move(tick, from, to, amt) => Gain(tick, a, t, to, amt) - Gain(tick, a, t, from, amt)
    case MintTo(tick, to, units) => Gain(tick, a, t, to, units)
    case BurnFrom(tick, from, units) => -Gain(tick, a, t, from, units)
    case OpenCurve(id, creator, reserve) =>
      if t == Meme(id) && reserve <= 99 then CurveToken(id, creator, reserve).holders[a] else 0
    case _ => 0
  }

  /** The change of the supply of `t`. */
  function SupplyDelta(s: Step, t: Tick): int {
    match s
    case MintTo(tick, _, units) => if t == tick then units else 0
    case BurnFrom(tick, _, units) => if t == tick then 0 - units else 0
    case OpenCurve(id, _, _) => if t == Meme(id) then MEME_MAX else 0
    case _ => 0
  }

  lemma TransferEffect(ts: Tokens, tick: Tick, from: Address, to: Address, amt: int, t: Tick, a: Address)
    requires Transfer(ts, tick, from, to, amt).Ok?
    ensures var ts' := Transfer(ts, tick, from, to, amt).value;
            && Balance(ts', t, a) == Balance(ts, t, a) + Gain(tick, a, t, to, amt) - Gain(tick, a, t, from, amt)
            && Supply(ts', t) == Supply(ts, t)
  {}

  lemma MintEffect(ts: Tokens, tick: Tick, to: Address, units: nat, t: Tick, a: Address)
    requires Mint(ts, tick, to, units).Ok?
    ensures var ts' := Mint(ts, tick, to, units).value;
            && Balance(ts', t, a) == Balance(ts, t, a) + Gain(tick, a, t, to, units)
            && Supply(ts', t) == Supply(ts, t) + if t == tick then units else 0
  {}

  lemma BurnEffect(ts: Tokens, tick: Tick, from: Address, units: nat, t: Tick, a: Address)
    requires Burn(ts, tick, from, units).Ok?
    ensures var ts' := Burn(ts, tick, from, units).value;
            && Balance(ts', t, a) == Balance(ts, t, a) - Gain(tick, a, t, from, units)
            && Supply(ts', t) == Supply(ts, t) - if t == tick then units else 0
  {}

  lemma PostEffect(d: Database, ts: Tokens, p: Posting, height: nat, t: Tick, a: Address)
    ensures Bal(Post(d, ts, p, height), t, a) == if t.Meme? == p.tick.Meme? then Balance(ts, t, a) else Bal(d, t, a)
    ensures Issued(Post(d, ts, p, height), t) == if t.Meme? == p.tick.Meme? then Supply(ts, t) else Issued(d, t)
  {}

  lemma AddTokenEffect(d: Database, tick: Tick, token: Token, t: Tick, a: Address)
    requires tick !in BookOf(d, tick).tokens
    ensures Bal(AddToken(d, tick, token), t, a) == Bal(d, t, a) + if t == tick then token.holders[a] else 0
    ensures Issued(AddToken(d, tick, token), t) == Issued(d, t) + if t == tick then token.supply else 0
  {}

  lemma StepEffect(d: Database, s: Step, height: nat, t: Tick, a: Address)
    requires Apply(d, s, height).Ok?
    ensures Bal(Apply(d, s, height).value, t, a) == Bal(d, t, a) + Delta(s, t, a)
    ensures Issued(Apply(d, s, height).value, t) == Issued(d, t) + SupplyDelta(s, t)
  {
    hide Post, AddToken, Transfer, Mint, Burn, CurveToken, Balance, Supply;
    match s
    case Move(tick, from, to, amt) =>
      var ts := BookOf(d, tick).tokens;
      MoveNeeds(d, s, height);
      TransferEffect(ts, tick, from, to, amt, t, a);
      PostEffect(d, Transfer(ts, tick, from, to, amt).value, Posting(from, to, tick, amt), height, t, a);
    case MintTo(tick, to, units) =>
      var ts := BookOf(d, tick).tokens;
      MintEffect(ts, tick, to, units, t, a);
      PostEffect(d, Mint(ts, tick, to, units).value, Posting(Nobody, to, tick, units), height, t, a);
    case BurnFrom(tick, from, units) =>
      var ts := BookOf(d, tick).tokens;
      BurnEffect(ts, tick, from, units, t, a);
      PostEffect(d, Burn(ts, tick, from, units).value, Posting(from, Nobody, tick, units), height, t, a);
    case DeployTick(tick, max, lim) => AddTokenEffect(d, tick, Token(0, max, lim, multiset{}), t, a);
    case OpenPool(pool, _, _) => AddTokenEffect(d, LpTick(pool), Token(0, MAX_NUMBER, 0, multiset{}), t, a);
    case OpenCurve(id, creator, reserve) => CurveTokenEffect(d, id, creator, reserve, t, a);
    case _ =>
  }

  lemma CurveTokenEffect(d: Database, id: string, creator: Signer, reserve: nat, t: Tick, a: Address)
    requires Meme(id) !in d.meme20.tokens && reserve <= 99
    ensures var d' := AddToken(d, Meme(id), CurveToken(id, creator, reserve));
            && Bal(d', t, a) == Bal(d, t, a) + Delta(OpenCurve(id, creator, reserve), t, a)
            && Issued(d', t) == Issued(d, t) + SupplyDelta(OpenCurve(id, creator, reserve), t)
  {
    AddTokenEffect(d, Meme(id), CurveToken(id, creator, reserve), t, a);
  }

  /** A debit needs the funds, and takes a positive amount. */
  lemma MoveNeeds(d: Database, s: Step, height: nat)
    requires Apply(d, s, height).Ok?
    ensures s.Move? ==> 1 <= s.amt <= Bal(d, s.tick, s.from) && s.from != s.to && s.tick in BookOf(d, s.tick).tokens
    ensures s.BurnFrom? ==> s.units <= Bal(d, s.tick, s.from) && s.units <= Issued(d, s.tick)
  {}

  lemma PostKeeps(d: Database, ts: Tokens, p: Posting, height: nat)
    requires BookOf(d, p.tick).tokens.Keys == ts.Keys
    ensures var d' := Post(d, ts, p, height);
            && d.drc20.tokens.Keys == d'.drc20.tokens.Keys
            && d.meme20.tokens.Keys == d'.meme20.tokens.Keys
            && d' == d.(drc20 := d'.drc20, meme20 := d'.meme20)
  {
    if p.tick.Meme? {
      assert Post(d, ts, p, height).drc20 == d.drc20;
    } else {
      assert Post(d, ts, p, height).meme20 == d.meme20;
    }
  }

  /** Writes to the ledgers alone. */
  predicate Ledgerly(s: Step) {
    s.Move? || s.MintTo? || s.BurnFrom?
  }

  lemma LedgerlyStep(d: Database, s: Step, height: nat)
    requires Apply(d, s, height).Ok? && Ledgerly(s)
    ensures var d' := Apply(d, s, height).value;
            && d' == d.(drc20 := d'.drc20, meme20 := d'.meme20)
            && d'.drc20.tokens.Keys == d.drc20.tokens.Keys
            && d'.meme20.tokens.Keys == d.meme20.tokens.Keys
  {
    hide Post;
    match s
    case Move(tick, from, to, amt) =>
      PostKeeps(d, Transfer(BookOf(d, tick).tokens, tick, from, to, amt).value, Posting(from, to, tick, amt), height);
    case MintTo(tick, to, units) =>
      PostKeeps(d, Mint(BookOf(d, tick).tokens, tick, to, units).value, Posting(Nobody, to, tick, units), height);
    case BurnFrom(tick, from, units) =>
      PostKeeps(d, Burn(BookOf(d, tick).tokens, tick, from, units).value, Posting(from, Nobody, tick, units), height);
  }

  /** Tokens, pools and info rows are never dropped by a write. */
  lemma StepKeeps(d: Database, s: Step, height: nat)
    requires Apply(d, s, height).Ok?
    ensures var d' := Apply(d, s, height).value;
            && d.drc20.tokens.Keys <= d'.drc20.tokens.Keys
            && d.meme20.tokens.Keys <= d'.meme20.tokens.Keys
            && d.pools.Keys <= d'.pools.Keys
            && d.infos.Keys == d'.infos.Keys
            && d.inviters == d'.inviters
  {
    hide CurveToken, TransferIn, MintIn, BurnIn, Refreshed, AddToken;
    if Ledgerly(s) {
      LedgerlyStep(d, s, height);
    } else if s.DeployTick? && s.tick.Drc? {
      AddTokenKeeps(d, s.tick, Token(0, s.max, s.lim, multiset{}));
    } else if s.OpenPool? {
      AddTokenKeeps(d, LpTick(s.pool), Token(0, MAX_NUMBER, 0, multiset{}));
    } else if s.OpenCurve? && s.reserve <= 99 {
      AddTokenKeeps(d, Meme(s.id), CurveToken(s.id, s.creator, s.reserve));
    }
  }

  lemma AddTokenKeeps(d: Database, tick: Tick, t: Token)
    ensures var d' := AddToken(d, tick, t);
            && d' == d.(drc20 := d'.drc20, meme20 := d'.meme20)
            && d.drc20.tokens.Keys <= d'.drc20.tokens.Keys
            && d.meme20.tokens.Keys <= d'.meme20.tokens.Keys
  {}

  lemma StepPools(d: Database, s: Step, height: nat, id: PoolId)
    requires Apply(d, s, height).Ok?
    ensures var d' := Apply(d, s, height).value;
            && (s != Refresh(id) && !(s.OpenPool? && s.pool == id) ==>
                  && (id in d'.pools <==> id in d.pools)
                  && (id in d.pools ==> d'.pools[id] == d.pools[id]))
            && (s == Refresh(id) ==>
                  && id in d.pools
                  && d' == d.(pools := d.pools[id := Refreshed(d.drc20.tokens, d.meme20.tokens, id, d.pools[id])]))
  {}

  // ---------------------------------------------------------------------------------------------------------------
  // Scripts
  // ---------------------------------------------------------------------------------------------------------------

  function Total(script: seq<Step>, t: Tick, a: Address): int {
    if script == [] then 0 else Delta(script[0], t, a) + Total(script[1..], t, a)
  }

  function SupplyTotal(script: seq<Step>, t: Tick): int {
    if script == [] then 0 else SupplyDelta(script[0], t) + SupplyTotal(script[1..], t)
  }

  /** What a script did to a balance and a supply is the sum of what its writes do. */
  lemma {:induction false} RunEffect(d: Database, script: seq<Step>, height: nat, t: Tick, a: Address)
    requires Run(d, script, height).Ok?
    ensures Bal(Run(d, script, height).value, t, a) == Bal(d, t, a) + Total(script, t, a)
    ensures Issued(Run(d, script, height).value, t) == Issued(d, t) + SupplyTotal(script, t)
    decreases |script|
  {
    hide Apply, Delta, SupplyDelta;
    if script != [] {
      StepEffect(d, script[0], height, t, a);
      RunEffect(Apply(d, script[0], height).value, script[1..], height, t, a);
    }
  }

  lemma {:induction false} RunKeeps(d: Database, script: seq<Step>, height: nat)
    requires Run(d, script, height).Ok?
    ensures var d' := Run(d, script, height).value;
            && d.drc20.tokens.Keys <= d'.drc20.tokens.Keys
            && d.meme20.tokens.Keys <= d'.meme20.tokens.Keys
            && d.pools.Keys <= d'.pools.Keys
            && d.infos.Keys == d'.infos.Keys
            && d.inviters == d'.inviters
    decreases |script|
  {
    hide Apply;
    if script != [] {
      StepKeeps(d, script[0], height);
      RunKeeps(Apply(d, script[0], height).value, script[1..], height);
    }
  }

  lemma TotalAppend(a: seq<Step>, b: seq<Step>, t: Tick, x: Address)
    ensures Total(a + b, t, x) == Total(a, t, x) + Total(b, t, x)
    ensures SupplyTotal(a + b, t) == SupplyTotal(a, t) + SupplyTotal(b, t)
    decreases |a|
  {
    if a == [] {
      assert a + b == b;
    } else {
      assert (a + b)[0] == a[0] && (a + b)[1..] == a[1..] + b;
      TotalAppend(a[1..], b, t, x);
    }
  }

  lemma TotalCons(s: Step, rest: seq<Step>, t: Tick, x: Address)
    ensures Total([s] + rest, t, x) == Delta(s, t, x) + Total(rest, t, x)
    ensures SupplyTotal([s] + rest, t) == SupplyDelta(s, t) + SupplyTotal(rest, t)
  {
    assert ([s] + rest)[1..] == rest;
  }

  lemma Total2(s0: Step, s1: Step, t: Tick, x: Address)
    ensures Total([s0, s1], t, x) == Delta(s0, t, x) + Delta(s1, t, x)
    ensures SupplyTotal([s0, s1], t) == SupplyDelta(s0, t) + SupplyDelta(s1, t)
  {
    assert [s0, s1] == [s0] + [s1] && [s1] == [s1] + [];
    TotalCons(s0, [s1], t, x);
    TotalCons(s1, [], t, x);
  }

  lemma Total3(s0: Step, s1: Step, s2: Step, t: Tick, x: Address)
    ensures Total([s0, s1, s2], t, x) == Delta(s0, t, x) + Delta(s1, t, x) + Delta(s2, t, x)
    ensures SupplyTotal([s0, s1, s2], t) == SupplyDelta(s0, t) + SupplyDelta(s1, t) + SupplyDelta(s2, t)
  {
    assert [s0, s1, s2] == [s0] + [s1, s2];
    TotalCons(s0, [s1, s2], t, x);
    Total2(s1, s2, t, x);
  }

  lemma Total4(s0: Step, s1: Step, s2: Step, s3: Step, t: Tick, x: Address)
    ensures Total([s0, s1, s2, s3], t, x) == Delta(s0, t, x) + Delta(s1, t, x) + Delta(s2, t, x) + Delta(s3, t, x)
    ensures SupplyTotal([s0, s1, s2, s3], t) ==
            SupplyDelta(s0, t) + SupplyDelta(s1, t) + SupplyDelta(s2, t) + SupplyDelta(s3, t)
  {
    assert [s0, s1, s2, s3] == [s0] + [s1, s2, s3];
    TotalCons(s0, [s1, s2, s3], t, x);
    Total3(s1, s2, s3, t, x);
  }

  /** They leave every row outside the ledgers as it is, and add no tick. */
  lemma {:induction false} LedgerlyRun(d: Database, script: seq<Step>, height: nat)
    requires Run(d, script, height).Ok? && forall s <- script :: Ledgerly(s)
    ensures var d' := Run(d, script, height).value;
            && d' == d.(drc20 := d'.drc20, meme20 := d'.meme20)
            && d'.drc20.tokens.Keys == d.drc20.tokens.Keys
            && d'.meme20.tokens.Keys == d.meme20.tokens.Keys
    decreases |script|
  {
    hide Apply, Ledgerly;
    if script != [] {
      LedgerlyStep(d, script[0], height);
      LedgerlyRun(Apply(d, script[0], height).value, script[1..], height);
    }
  }

  /** A write leaves every info row as it is but for its trade mark. */
  lemma StepInfos(d: Database, s: Step, height: nat)
    requires Apply(d, s, height).Ok?
    ensures var d' := Apply(d, s, height).value;
            && d'.infos.Keys == d.infos.Keys
            && forall k <- d.infos :: d'.infos[k].protocol == d.infos[k].protocol
                                   && d'.infos[k].height == d.infos[k].height
  {
    hide CurveToken, Transfer, Mint, Burn;
    if Ledgerly(s) {
      LedgerlyStep(d, s, height);
    }
  }

  lemma {:induction false} RunInfos(d: Database, script: seq<Step>, height: nat)
    requires Run(d, script, height).Ok?
    ensures var d' := Run(d, script, height).value;
            && d'.infos.Keys == d.infos.Keys
            && forall k <- d.infos :: d'.infos[k].protocol == d.infos[k].protocol
                                   && d'.infos[k].height == d.infos[k].height
    decreases |script|
  {
    hide Apply;
    if script != [] {
      StepInfos(d, script[0], height);
      RunInfos(Apply(d, script[0], height).value, script[1..], height);
    }
  }
}
