/** The two token ledgers: `drc20_collect` / `drc20_collect_address` / `drc20_revert` and their meme-20 twins.
    A token's holders form a multiset of units: the balance of an address is its multiplicity, so an address with
    no row and an address with a zero row are the same, and the units handed out are the cardinality. */
module Results {
  /** An operation either succeeds, or fails and its transaction is rolled back. */
  datatype Result<+T> = Ok(value: T) | Failed {
    predicate IsFailure() { Failed? }

    function PropagateFailure<U>(): Result<U>
      requires Failed?
    {
      Failed
    }

    function Extract(): T
      requires Ok?
    {
      value
    }
  }
}

module Names {
  /** `Drc` and `Lp` ticks live in the drc-20 tables, `Meme` ids in the meme-20 tables.
      `Lp(a, b)` is the liquidity token "a-SWAP-b" of a v1 pair; a v2 pair's liquidity token is `Meme(pairId)`. */
  datatype Tick = Drc(name: string) | Lp(tick0: Tick, tick1: Tick) | Meme(id: string)

  datatype PoolId = V1(tick0: Tick, tick1: Tick) | V2(pairId: string)

  /** `Nobody` is the empty address column; the script-hash addresses are injective in what they are derived from. */
  datatype Address =
    | Nobody
    | User(name: string)
    | Reserves(pool: PoolId)
    | PumpReserves(id: string)
    | Escrow(stakeId: string)
    | FarmReserves(stakeId: string)
    | OrderReserves(exId: string)

  type Party = a: Address | a != Nobody witness User("")

  /** An address that can be the first output of a transaction: reserve and escrow addresses never sign. */
  type Signer = a: Address | a.User? witness User("")

  const WDOGE := Drc("WDOGE(WRAPPED-DOGE)")
  const CARDI := Drc("CARDI")

  const TX_FEE: Signer := User("D7NfMMzqWB9FaUssLwgCs14Q5F6CCfpf9A")
  const FINISH_FEE: Signer := User("DJ9wVHBFnbcZUtfWdHWPEnijdxz1CABPUY")

  /** The liquidity token of a pool. */
  function LpTick(pool: PoolId): Tick {
    match pool
    case V1(t0, t1) => Lp(t0, t1)
    case V2(id) => Meme(id)
  }
}

module Logs {
  /** A revert row together with its block number. */
  datatype Entry<+T> = Entry(row: T, height: nat)

  /** `block_number > h`, in id order. */
  function Above<T>(log: seq<Entry<T>>, h: nat): seq<Entry<T>> {
    if log == [] then []
    else
      var rest := Above(log[..|log| - 1], h);
      if log[|log| - 1].height > h then rest + [log[|log| - 1]] else rest
  }

  /** What `delRevert` leaves. */
  function Upto<T>(log: seq<Entry<T>>, h: nat): seq<Entry<T>> {
    if log == [] then []
    else
      var rest := Upto(log[..|log| - 1], h);
      if log[|log| - 1].height <= h then rest + [log[|log| - 1]] else rest
  }

  ghost predicate AllUpto<T>(log: seq<Entry<T>>, h: nat) {
    forall e <- log :: e.height <= h
  }

  ghost predicate AllAbove<T>(log: seq<Entry<T>>, h: nat) {
    forall e <- log :: e.height > h
  }

  /** Both halves are made of rows of the log, on their side of the height. */
  lemma {:induction false} CutLog<T>(log: seq<Entry<T>>, h: nat)
    ensures forall e <- Above(log, h) :: e in log && e.height > h
    ensures forall e <- Upto(log, h) :: e in log && e.height <= h
    decreases |log|
  {
    if log != [] {
      CutLog(log[..|log| - 1], h);
    }
  }

  lemma AppendOne<T>(log: seq<Entry<T>>, e: Entry<T>, h: nat)
    ensures Above(log + [e], h) == if e.height > h then Above(log, h) + [e] else Above(log, h)
    ensures Upto(log + [e], h) == if e.height <= h then Upto(log, h) + [e] else Upto(log, h)
  {
    assert (log + [e])[..|log|] == log;
  }

  /** A log written by `h` and then only above `h` splits exactly there. */
  lemma {:induction false} SplitAt<T>(early: seq<Entry<T>>, late: seq<Entry<T>>, h: nat)
    requires AllUpto(early, h) && AllAbove(late, h)
    ensures Above(early + late, h) == late
    ensures Upto(early + late, h) == early
  {
    if late != [] {
      var init, last := late[..|late| - 1], late[|late| - 1];
      assert late == init + [last];
      assert early + late == (early + init) + [last];
      assert last in late;
      SplitAt(early, init, h);
      AppendOne(early + init, last, h);
    } else if early != [] {
      var init, last := early[..|early| - 1], early[|early| - 1];
      assert early == init + [last];
      assert early + late == early;
      assert last in early;
      SplitAt(init, [], h);
      assert init + [] == init;
      AppendOne(init, last, h);
    }
  }
}

module Ledger {
  import opened Results
  import opened Names
  import opened Logs

  /** `supply` is `amt_sum` (drc-20) or `max_` (meme-20); `max` and `lim` are the deploy parameters. */
  datatype Token = Token(supply: nat, max: nat, lim: nat, holders: multiset<Address>)

  type Tokens = map<Tick, Token>

  /** A row of `drc20_revert` / `meme20_revert`; `Nobody` stands for an empty column. */
  datatype Posting = Posting(from: Address, to: Address, tick: Tick, amt: nat)

  datatype Book = Book(tokens: Tokens, log: seq<Entry<Posting>>)

  function Balance(ts: Tokens, tick: Tick, a: Address): nat {
    if tick in ts then ts[tick].holders[a] else 0
  }

  function Supply(ts: Tokens, tick: Tick): nat {
    if tick in ts then ts[tick].supply else 0
  }

  function Transfer(ts: Tokens, tick: Tick, from: Address, to: Address, amt: int): Result<Tokens> {
    if amt < 1 || from == to || tick !in ts || amt > ts[tick].holders[from] then Failed
    else
      var t := ts[tick];
      var debited := t.holders[from := t.holders[from] - amt];
      Ok(ts[tick := t.(holders := debited[to := debited[to] + amt])])
  }

  function Mint(ts: Tokens, tick: Tick, to: Address, amt: nat): Result<Tokens> {
    if tick !in ts then Failed
    else
      var t := ts[tick];
      Ok(ts[tick := t.(supply := t.supply + amt, holders := t.holders[to := t.holders[to] + amt])])
  }

  function Burn(ts: Tokens, tick: Tick, from: Address, amt: nat): Result<Tokens> {
    if tick !in ts || ts[tick].supply < amt || ts[tick].holders[from] < amt then Failed
    else
      var t := ts[tick];
      Ok(ts[tick := t.(supply := t.supply - amt, holders := t.holders[from := t.holders[from] - amt])])
  }

  /** What the body of `drc20Fork` / `meme20Fork` does for one revert row. */
  function Undo(ts: Tokens, p: Posting): Result<Tokens> {
    if p.to != Nobody && p.from == Nobody then Burn(ts, p.tick, p.to, p.amt)
    else if p.from != Nobody && p.to == Nobody then Mint(ts, p.tick, p.from, p.amt)
    else Transfer(ts, p.tick, p.to, p.from, p.amt)
  }

  /** Undo a whole log, newest row first. */
  function Rewind(ts: Tokens, log: seq<Entry<Posting>>): Result<Tokens>
    decreases |log|
  {
    if log == [] then Ok(ts)
    else
      var prev :- Undo(ts, log[|log| - 1].row);
      Rewind(prev, log[..|log| - 1])
  }

  // ---------------------------------------------------------------------------------------------------------------
  // One row
  // ---------------------------------------------------------------------------------------------------------------

  /** A transfer between two non-empty addresses is undone by its row. */
  lemma TransferUndone(ts: Tokens, tick: Tick, from: Address, to: Address, amt: int)
    requires Transfer(ts, tick, from, to, amt).Ok?
    ensures from != Nobody && to != Nobody ==>
              Undo(Transfer(ts, tick, from, to, amt).value, Posting(from, to, tick, amt)) == Ok(ts)
  {
    if from != Nobody && to != Nobody {
      var after := Transfer(ts, tick, from, to, amt).value;
      var back := Undo(after, Posting(from, to, tick, amt));
      assert back.value[tick].holders == ts[tick].holders;
      assert back.value == ts;
    }
  }

  /** A mint is undone by its row exactly when the address column is not empty: otherwise the row reads as a
      transfer from nobody to nobody, which fails and stops the whole fork. */
  lemma MintUndoneIff(ts: Tokens, tick: Tick, to: Address, amt: nat)
    requires tick in ts
    ensures Undo(Mint(ts, tick, to, amt).value, Posting(Nobody, to, tick, amt)) == Ok(ts) <==> to != Nobody
  {
    if to != Nobody {
      var back := Undo(Mint(ts, tick, to, amt).value, Posting(Nobody, to, tick, amt));
      assert back.value[tick].holders == ts[tick].holders;
      assert back.value == ts;
    }
  }

  lemma BurnUndoneIff(ts: Tokens, tick: Tick, from: Address, amt: nat)
    requires Burn(ts, tick, from, amt).Ok?
    ensures Undo(Burn(ts, tick, from, amt).value, Posting(from, Nobody, tick, amt)) == Ok(ts) <==> from != Nobody
  {
    if from != Nobody {
      var back := Undo(Burn(ts, tick, from, amt).value, Posting(from, Nobody, tick, amt));
      assert back.value[tick].holders == ts[tick].holders;
      assert back.value == ts;
    }
  }

  // ---------------------------------------------------------------------------------------------------------------
  // Whole logs
  // ---------------------------------------------------------------------------------------------------------------

  /** Rewinding touches only the tokens its rows name, and never adds or drops one. */
  lemma {:induction false} RewindKeys(ts: Tokens, log: seq<Entry<Posting>>)
    requires Rewind(ts, log).Ok?
    ensures Rewind(ts, log).value.Keys == ts.Keys
    ensures forall e <- log :: e.row.tick in ts
    decreases |log|
  {
    if log != [] {
      var prev := Undo(ts, log[|log| - 1].row).value;
      assert prev.Keys == ts.Keys;
      RewindKeys(prev, log[..|log| - 1]);
      assert forall e <- log :: e == log[|log| - 1] || e in log[..|log| - 1];
    }
  }

  /** A token that appears later does not disturb the rewinding of the rows before it. */
  lemma {:induction false} RewindFrame(ts: Tokens, log: seq<Entry<Posting>>, tick: Tick, t: Token)
    requires Rewind(ts, log).Ok? && tick !in ts
    ensures Rewind(ts[tick := t], log) == Ok(Rewind(ts, log).value[tick := t])
    decreases |log|
  {
    if log != [] {
      var p := log[|log| - 1].row;
      var prev := Undo(ts, p).value;
      assert prev.Keys == ts.Keys;
      assert Undo(ts[tick := t], p).Ok? && Undo(ts[tick := t], p).value == prev[tick := t];
      RewindFrame(prev, log[..|log| - 1], tick, t);
    }
  }

  /** Everything a run of postings did is undone by its log: the last posting first. */
  lemma RewindLast(before: Tokens, after: Tokens, log: seq<Entry<Posting>>, e: Entry<Posting>)
    requires Undo(after, e.row) == Ok(before)
    ensures Rewind(after, log + [e]) == Rewind(before, log)
  {
    assert (log + [e])[..|log|] == log;
  }

  // ---------------------------------------------------------------------------------------------------------------
  // Conservation
  // ---------------------------------------------------------------------------------------------------------------

  /** The holders of every token together hold its recorded supply. */
  ghost predicate Conserved(ts: Tokens) {
    forall tick <- ts :: |ts[tick].holders| == ts[tick].supply
  }

  lemma TransferConserves(ts: Tokens, tick: Tick, from: Address, to: Address, amt: int)
    requires Conserved(ts) && Transfer(ts, tick, from, to, amt).Ok?
    ensures Conserved(Transfer(ts, tick, from, to, amt).value)
  {}

  lemma MintConserves(ts: Tokens, tick: Tick, to: Address, amt: nat)
    requires Conserved(ts) && tick in ts
    ensures Conserved(Mint(ts, tick, to, amt).value)
  {}

  lemma BurnConserves(ts: Tokens, tick: Tick, from: Address, amt: nat)
    requires Conserved(ts) && Burn(ts, tick, from, amt).Ok?
    ensures Conserved(Burn(ts, tick, from, amt).value)
  {}

  /** Conservation survives a fork, whatever the log says. */
  lemma {:induction false} RewindConserves(ts: Tokens, log: seq<Entry<Posting>>)
    requires Conserved(ts) && Rewind(ts, log).Ok?
    ensures Conserved(Rewind(ts, log).value)
    decreases |log|
  {
    if log != [] {
      var p := log[|log| - 1].row;
      var prev := Undo(ts, p).value;
      assert Conserved(prev);
      RewindConserves(prev, log[..|log| - 1]);
    }
  }

  /** Two different holders of one token together hold at most its supply. */
  lemma TwoHolders(ts: Tokens, tick: Tick, a: Address, b: Address)
    requires Conserved(ts) && a != b
    ensures Balance(ts, tick, a) + Balance(ts, tick, b) <= Supply(ts, tick)
  {
    if tick in ts {
      var h := ts[tick].holders;
      var both := multiset{}[a := h[a]][b := h[b]];
      assert both <= h;
      assert |h| == |h - both| + |both|;
      assert |both| == h[a] + h[b];
    }
  }
}
