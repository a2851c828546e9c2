/** One token ledger as its tables, updated in place: `drc20_collect`, `drc20_collect_address` and `drc20_revert`, or
    the meme-20 tables of the same shape. */
module Tables {
  import opened Names
  import opened Logs
  import opened Ledger
  import opened Effects

  /** A row of the collect table. */
  datatype Collect = Collect(supply: nat, max: nat, lim: nat)

  /** The address rows; an address without a row is not the same as one with a zero row. */
  type Rows = map<(Tick, Address), nat>

  /** The rows say what the ledger says, and belong to a token that exists. */
  ghost predicate Means(collect: map<Tick, Collect>, rows: Rows, ts: Tokens) {
    && Heads(collect, ts)
    && (forall k <- rows :: k.0 in ts)
    && (forall t: Tick, a: Address :: Count(rows, t, a) == Balance(ts, t, a))
  }

  ghost predicate Heads(collect: map<Tick, Collect>, ts: Tokens) {
    && ts.Keys == collect.Keys
    && forall t <- ts :: Collect(ts[t].supply, ts[t].max, ts[t].lim) == collect[t]
  }

  function Count(rows: Rows, t: Tick, a: Address): nat {
    if (t, a) in rows then rows[(t, a)] else 0
  }

  /** Both addresses a revert row names have a balance row, and its token exists. */
  ghost predicate Logged(collect: map<Tick, Collect>, rows: Rows, log: seq<Entry<Posting>>) {
    forall e <- log ::
      && e.row.tick in collect
      && (e.row.from != Nobody ==> (e.row.tick, e.row.from) in rows)
      && (e.row.to != Nobody ==> (e.row.tick, e.row.to) in rows)
  }

  // ---------------------------------------------------------------------------------------------------------------
  // Rows and ledger
  // ---------------------------------------------------------------------------------------------------------------

  /** A row's amount, after the row is made if it was missing. */
  function Put(rows: Rows, tick: Tick, a: Address, amt: nat): (r: Rows)
    ensures r.Keys == rows.Keys + {(tick, a)}
  {
    rows[(tick, a) := amt]
  }

  function Resupplied(collect: map<Tick, Collect>, tick: Tick, supply: nat): (r: map<Tick, Collect>)
    requires tick in collect
    ensures r.Keys == collect.Keys
  {
    collect[tick := collect[tick].(supply := supply)]
  }

  lemma CountPut(rows: Rows, tick: Tick, a: Address, amt: nat, t: Tick, x: Address)
    ensures Count(Put(rows, tick, a, amt), t, x) == if t == tick && x == a then amt else Count(rows, t, x)
  {}

  lemma TransferKeeps(ts: Tokens, tick: Tick, from: Address, to: Address, amt: int)
    ensures Transfer(ts, tick, from, to, amt).Ok? <==> amt >= 1 && from != to && amt <= Balance(ts, tick, from)
    ensures Transfer(ts, tick, from, to, amt).Ok? ==>
              && tick in ts
              && Transfer(ts, tick, from, to, amt).value ==
                 ts[tick := ts[tick].(holders := Transfer(ts, tick, from, to, amt).value[tick].holders)]
  {}

  lemma TransferRows(collect: map<Tick, Collect>, rows: Rows, ts: Tokens, tick: Tick, from: Address, to: Address, amt: int)
    requires Means(collect, rows, ts)
    ensures Transfer(ts, tick, from, to, amt).Ok? <==>
            amt >= 1 && from != to && (tick, from) in rows && amt <= rows[(tick, from)]
    ensures Transfer(ts, tick, from, to, amt).Ok? ==>
              tick in collect &&
              var debited := Put(rows, tick, from, Count(rows, tick, from) - amt);
              Means(collect, Put(debited, tick, to, Count(rows, tick, to) + amt), Transfer(ts, tick, from, to, amt).value)
  {
    assert Count(rows, tick, from) == Balance(ts, tick, from);
    TransferKeeps(ts, tick, from, to, amt);
    hide Transfer, Put, Balance;
    if Transfer(ts, tick, from, to, amt).Ok? {
      var debited := Put(rows, tick, from, Count(rows, tick, from) - amt);
      var rows2 := Put(debited, tick, to, Count(rows, tick, to) + amt);
      forall t: Tick, a: Address
        ensures Count(rows2, t, a) == Balance(Transfer(ts, tick, from, to, amt).value, t, a)
      {
        CountPut(rows, tick, from, Count(rows, tick, from) - amt, t, a);
        CountPut(debited, tick, to, Count(rows, tick, to) + amt, t, a);
        TransferEffect(ts, tick, from, to, amt, t, a);
        assert Count(rows, t, a) == Balance(ts, t, a);
      }
    }
  }

  lemma HeadsPut(collect: map<Tick, Collect>, ts: Tokens, tick: Tick, t: Token)
    requires Heads(collect, ts) && tick in collect && collect[tick] == Collect(collect[tick].supply, t.max, t.lim)
    ensures Heads(Resupplied(collect, tick, t.supply), ts[tick := t])
  {}

  lemma MintHeads(collect: map<Tick, Collect>, ts: Tokens, tick: Tick, holder: Address, amt: nat)
    requires Heads(collect, ts) && tick in collect
    ensures Mint(ts, tick, holder, amt).Ok?
    ensures Heads(Resupplied(collect, tick, collect[tick].supply + amt), Mint(ts, tick, holder, amt).value)
  {
    assert collect[tick] == Collect(ts[tick].supply, ts[tick].max, ts[tick].lim);
    var t := Mint(ts, tick, holder, amt).value[tick];
    assert Mint(ts, tick, holder, amt).value == ts[tick := t];
    HeadsPut(collect, ts, tick, t);
  }

  lemma BurnHeads(collect: map<Tick, Collect>, ts: Tokens, tick: Tick, holder: Address, amt: nat)
    requires Heads(collect, ts) && Burn(ts, tick, holder, amt).Ok?
    ensures tick in collect && collect[tick].supply >= amt
    ensures Heads(Resupplied(collect, tick, collect[tick].supply - amt), Burn(ts, tick, holder, amt).value)
  {
    assert collect[tick] == Collect(ts[tick].supply, ts[tick].max, ts[tick].lim);
    var t := Burn(ts, tick, holder, amt).value[tick];
    assert Burn(ts, tick, holder, amt).value == ts[tick := t];
    HeadsPut(collect, ts, tick, t);
  }

  lemma MintRows(collect: map<Tick, Collect>, rows: Rows, ts: Tokens, tick: Tick, holder: Address, amt: nat)
    requires Means(collect, rows, ts)
    ensures Mint(ts, tick, holder, amt).Ok? <==> tick in collect
    ensures tick in collect ==>
              Means(Resupplied(collect, tick, collect[tick].supply + amt),
                    Put(rows, tick, holder, Count(rows, tick, holder) + amt), Mint(ts, tick, holder, amt).value)
  {
    if tick in collect {
      var rows2 := Put(rows, tick, holder, Count(rows, tick, holder) + amt);
      MintHeads(collect, ts, tick, holder, amt);
      hide Mint, Put, Balance, Resupplied;
      forall t: Tick, a: Address
        ensures Count(rows2, t, a) == Balance(Mint(ts, tick, holder, amt).value, t, a)
      {
        CountPut(rows, tick, holder, Count(rows, tick, holder) + amt, t, a);
        MintEffect(ts, tick, holder, amt, t, a);
        assert Count(rows, t, a) == Balance(ts, t, a);
      }
    }
  }

  lemma HasRow(rows: Rows, tick: Tick, a: Address)
    ensures (tick, a) in rows ==> rows[(tick, a)] == Count(rows, tick, a)
    ensures Count(rows, tick, a) >= 1 ==> (tick, a) in rows
  {}

  lemma BurnRows(collect: map<Tick, Collect>, rows: Rows, ts: Tokens, tick: Tick, holder: Address, amt: nat)
    requires Means(collect, rows, ts)
    ensures Burn(ts, tick, holder, amt).Ok? <==>
            tick in collect && collect[tick].supply >= amt && Count(rows, tick, holder) >= amt
    ensures Burn(ts, tick, holder, amt).Ok? ==>
              Means(Resupplied(collect, tick, collect[tick].supply - amt),
                    Put(rows, tick, holder, Count(rows, tick, holder) - amt), Burn(ts, tick, holder, amt).value)
  {
    assert Count(rows, tick, holder) == Balance(ts, tick, holder);
    if Burn(ts, tick, holder, amt).Ok? {
      var rows2 := Put(rows, tick, holder, Count(rows, tick, holder) - amt);
      BurnHeads(collect, ts, tick, holder, amt);
      hide Burn, Put, Balance, Resupplied;
      forall t: Tick, a: Address
        ensures Count(rows2, t, a) == Balance(Burn(ts, tick, holder, amt).value, t, a)
      {
        CountPut(rows, tick, holder, Count(rows, tick, holder) - amt, t, a);
        BurnEffect(ts, tick, holder, amt, t, a);
        assert Count(rows, t, a) == Balance(ts, t, a);
      }
    }
  }

  lemma LoggedMore(collect: map<Tick, Collect>, rows: Rows, log: seq<Entry<Posting>>,
                   collect2: map<Tick, Collect>, rows2: Rows)
    requires Logged(collect, rows, log) && collect.Keys <= collect2.Keys && rows.Keys <= rows2.Keys
    ensures Logged(collect2, rows2, log)
  {}

  lemma LoggedOne(collect: map<Tick, Collect>, rows: Rows, log: seq<Entry<Posting>>, e: Entry<Posting>)
    requires Logged(collect, rows, log) && Logged(collect, rows, [e])
    ensures Logged(collect, rows, log + [e])
  {}

  lemma DeleteRows(collect: map<Tick, Collect>, rows: Rows, ts: Tokens, tick: Tick)
    requires Means(collect, rows, ts)
    ensures Means(collect - {tick}, map k <- rows | k.0 != tick :: rows[k], ts - {tick})
  {
    var kept := map k <- rows | k.0 != tick :: rows[k];
    forall t: Tick, a: Address
      ensures Count(kept, t, a) == Balance(ts - {tick}, t, a)
    {
      assert Count(rows, t, a) == Balance(ts, t, a);
    }
  }

  lemma FundedRows(collect: map<Tick, Collect>, rows: Rows, ts: Tokens, tick: Tick, supply: nat, a: Address, amtA: nat,
                   b: Address, amtB: nat)
    requires Means(collect, rows, ts) && tick !in collect && a != b
    ensures Means(collect[tick := Collect(supply, 0, 0)], Put(Put(rows, tick, a, amtA), tick, b, amtB),
                  ts[tick := Token(supply, 0, 0, multiset{}[a := amtA][b := amtB])])
    ensures amtB == 0 ==> Means(collect[tick := Collect(supply, 0, 0)], Put(rows, tick, a, amtA),
                                ts[tick := Token(supply, 0, 0, multiset{}[a := amtA][b := amtB])])
  {
    var ts2 := ts[tick := Token(supply, 0, 0, multiset{}[a := amtA][b := amtB])];
    var one := Put(rows, tick, a, amtA);
    hide Put;
    forall t: Tick, x: Address
      ensures Count(Put(one, tick, b, amtB), t, x) == Balance(ts2, t, x)
      ensures amtB == 0 ==> Count(one, t, x) == Balance(ts2, t, x)
    {
      CountPut(rows, tick, a, amtA, t, x);
      CountPut(one, tick, b, amtB, t, x);
      assert Count(rows, t, x) == Balance(ts, t, x);
    }
  }

  datatype TableCopy = TableCopy(collect: map<Tick, Collect>, rows: Rows, log: seq<Entry<Posting>>)

  /** The copied tables mean the book, and are in step. */
  ghost predicate Stands(c: TableCopy, b: Book) {
    b.log == c.log && Means(c.collect, c.rows, b.tokens) && Logged(c.collect, c.rows, c.log)
  }

  class TokenTable {
    var collect: map<Tick, Collect>
    var rows: Rows
    var log: seq<Entry<Posting>>

    /** What the tables mean. */
    ghost var book: Book

    ghost predicate Valid()
      reads this
    {
      book.log == log && Means(collect, rows, book.tokens)
    }

    /** The undo log is in step with the rows. */
    ghost predicate InStep()
      reads this
    {
      Valid() && Logged(collect, rows, log)
    }

    constructor ()
      ensures InStep() && book == Book(map[], [])
    {
      collect, rows, log := map[], map[], [];
      book := Book(map[], []);
    }

    /** `TransferDrc20` / `TransferMeme20`. */
    method Send(tick: Tick, from: Address, to: Address, amt: int, height: nat, fork: bool) returns (ok: bool)
      requires InStep() && (!fork ==> from != Nobody && to != Nobody)
      modifies this
      ensures InStep() && collect == old(collect)
      ensures ok == Transfer(old(book.tokens), tick, from, to, amt).Ok?
      ensures ok ==> book.tokens == Transfer(old(book.tokens), tick, from, to, amt).value
      ensures ok ==> log == old(log) + if fork then [] else [Entry(Posting(from, to, tick, amt), height)]
      ensures !ok ==> book == old(book)
    {
      hide Transfer, Means, Logged, Balance, Put;
      TransferRows(collect, rows, book.tokens, tick, from, to, amt);
      ok := false;
      if amt < 1 || from == to { return; }
      if (tick, from) !in rows { return; }
      var count1 := rows[(tick, from)];
      if amt > count1 { return; }
      ghost var before := rows;
      var count2 := Count(rows, tick, to);
      rows := Put(rows, tick, from, count1 - amt);
      rows := Put(rows, tick, to, count2 + amt);
      book := book.(tokens := Transfer(book.tokens, tick, from, to, amt).value);
      LoggedMore(collect, before, log, collect, rows);
      if !fork {
        LogPosting(Posting(from, to, tick, amt), height);
      }
      ok := true;
    }

    method LogPosting(p: Posting, height: nat)
      requires InStep() && p.tick in collect
      requires (p.from != Nobody ==> (p.tick, p.from) in rows) && (p.to != Nobody ==> (p.tick, p.to) in rows)
      modifies this`log, this`book
      ensures InStep()
      ensures log == old(log) + [Entry(p, height)] && book.tokens == old(book.tokens)
    {
      LoggedOne(collect, rows, log, Entry(p, height));
      log := log + [Entry(p, height)];
      book := book.(log := log);
    }

    /** `MintDrc20` / `MintMeme20`. */
    method Issue(tick: Tick, holder: Address, amt: nat, height: nat, fork: bool) returns (ok: bool)
      requires InStep() && (!fork ==> holder != Nobody)
      modifies this
      ensures InStep() && collect.Keys == old(collect.Keys)
      ensures ok == Mint(old(book.tokens), tick, holder, amt).Ok?
      ensures ok ==> book.tokens == Mint(old(book.tokens), tick, holder, amt).value
      ensures ok ==> log == old(log) + if fork then [] else [Entry(Posting(Nobody, holder, tick, amt), height)]
      ensures !ok ==> book == old(book)
    {
      hide Mint, Balance, Count, Means, Logged, Put, Resupplied;
      MintRows(collect, rows, book.tokens, tick, holder, amt);
      ok := false;
      if tick !in collect { return; }
      var count, count1 := collect[tick].supply, Count(rows, tick, holder);
      LoggedMore(collect, rows, log, Resupplied(collect, tick, count + amt), Put(rows, tick, holder, count1 + amt));
      collect := Resupplied(collect, tick, count + amt);
      rows := Put(rows, tick, holder, count1 + amt);
      book := book.(tokens := Mint(book.tokens, tick, holder, amt).value);
      if !fork {
        LogPosting(Posting(Nobody, holder, tick, amt), height);
      }
      ok := true;
    }

    /** `BurnDrc20` / `BurnMeme20`: the holder must have a row, even to burn nothing. */
    method Redeem(tick: Tick, holder: Address, amt: nat, height: nat, fork: bool) returns (ok: bool)
      requires InStep() && (!fork ==> holder != Nobody)
      modifies this
      ensures InStep() && collect.Keys == old(collect.Keys)
      ensures ok == (Burn(old(book.tokens), tick, holder, amt).Ok? && (amt >= 1 || (tick, holder) in old(rows)))
      ensures ok ==> book.tokens == Burn(old(book.tokens), tick, holder, amt).value
      ensures ok ==> log == old(log) + if fork then [] else [Entry(Posting(holder, Nobody, tick, amt), height)]
      ensures !ok ==> book == old(book)
    {
      hide Burn, Balance, Count, Means, Logged, Put, Resupplied;
      BurnRows(collect, rows, book.tokens, tick, holder, amt);
      HasRow(rows, tick, holder);
      ok := false;
      if tick !in collect || (tick, holder) !in rows { return; }
      var count, count1 := collect[tick].supply, rows[(tick, holder)];
      if count < amt || count1 < amt { return; }
      LoggedMore(collect, rows, log, Resupplied(collect, tick, count - amt), Put(rows, tick, holder, count1 - amt));
      collect := Resupplied(collect, tick, count - amt);
      rows := Put(rows, tick, holder, count1 - amt);
      book := book.(tokens := Burn(book.tokens, tick, holder, amt).value);
      if !fork {
        LogPosting(Posting(holder, Nobody, tick, amt), height);
      }
      ok := true;
    }

    /** What a database transaction goes back to when it is rolled back. */
    function Copy(): TableCopy
      reads this
    {
      TableCopy(collect, rows, log)
    }

    method Load(c: TableCopy, ghost b: Book)
      requires Stands(c, b)
      modifies this
      ensures InStep() && book == b
    {
      collect, rows, log := c.collect, c.rows, c.log;
      book := b;
    }

    /** A new collect row without holders. */
    method Create(tick: Tick, max: nat, lim: nat)
      requires InStep() && tick !in collect
      modifies this
      ensures InStep() && log == old(log)
      ensures book.tokens == old(book.tokens)[tick := Token(0, max, lim, multiset{})]
    {
      ghost var was := collect;
      collect := collect[tick := Collect(0, max, lim)];
      book := book.(tokens := book.tokens[tick := Token(0, max, lim, multiset{})]);
      LoggedMore(was, rows, log, collect, rows);
    }

    /** A new token handed out whole: to one address, or to two. */
    method CreateFunded(tick: Tick, supply: nat, a: Address, amtA: nat, b: Address, amtB: nat)
      requires InStep() && tick !in collect && a != b
      modifies this
      ensures InStep() && log == old(log)
      ensures book.tokens == old(book.tokens)[tick := Token(supply, 0, 0, multiset{}[a := amtA][b := amtB])]
    {
      hide Means, Logged, Put;
      FundedRows(collect, rows, book.tokens, tick, supply, a, amtA, b, amtB);
      ghost var was, before := collect, rows;
      collect := collect[tick := Collect(supply, 0, 0)];
      rows := Put(rows, tick, a, amtA);
      if amtB > 0 {
        rows := Put(rows, tick, b, amtB);
      }
      book := book.(tokens := book.tokens[tick := Token(supply, 0, 0, multiset{}[a := amtA][b := amtB])]);
      LoggedMore(was, before, log, collect, rows);
    }

    /** `drc20Fork` / `meme20Fork`: undo the revert rows above the height, newest first. No row is ever missing that the
        undo asks for: the loop stops early only where the ledger itself could not be rewound. */
    method UndoAbove(height: nat) returns (ok: bool)
      requires InStep()
      modifies this
      ensures InStep() && log == old(log) && collect.Keys == old(collect.Keys)
      ensures ok == Rewind(old(book.tokens), Above(old(log), height)).Ok?
      ensures ok ==> book.tokens == Rewind(old(book.tokens), Above(old(log), height)).value
    {
      hide Transfer, Mint, Burn, Means;
      var reverts := Above(log, height);
      CutLog(log, height);
      var i := |reverts|;
      assert reverts[..i] == reverts;
      while i > 0
        invariant 0 <= i <= |reverts|
        invariant InStep() && log == old(log) && collect.Keys == old(collect.Keys)
        invariant Rewind(old(book.tokens), reverts) == Rewind(book.tokens, reverts[..i])
      {
        i := i - 1;
        var revert := reverts[i].row;
        assert reverts[i] in log;
        assert reverts[..i + 1][..i] == reverts[..i];
        if revert.to != Nobody && revert.from == Nobody {
          ok := Redeem(revert.tick, revert.to, revert.amt, 0, true);
        } else if revert.from != Nobody && revert.to == Nobody {
          ok := Issue(revert.tick, revert.from, revert.amt, 0, true);
        } else {
          ok := Send(revert.tick, revert.to, revert.from, revert.amt, 0, true);
        }
        if !ok { return; }
      }
      ok := true;
    }

    /** `delRevert` for this table. */
    method DeleteLog(height: nat)
      requires Valid()
      modifies this`log, this`book
      ensures Valid()
      ensures book == old(book).(log := Upto(old(log), height))
    {
      log := Upto(log, height);
      book := book.(log := log);
    }

    /** Delete a token: its collect row and every address row. */
    method Delete(tick: Tick)
      requires Valid()
      modifies this
      ensures Valid() && log == old(log)
      ensures book.tokens == old(book.tokens) - {tick}
      ensures forall k <- old(rows) :: k.0 != tick ==> k in rows
    {
      DeleteRows(collect, rows, book.tokens, tick);
      collect := collect - {tick};
      rows := map k <- rows | k.0 != tick :: rows[k];
      book := book.(tokens := book.tokens - {tick});
    }
  }
}
