/** The scanning loop of the indexer against a node that may reorganise between iterations. */
module Scanner {
  import opened Results
  import opened Names
  import opened Db
  import opened Execute
  import opened Rollback
  import opened Reorg
  import opened Chronicles
  import opened Histories
  import opened Storage

  class Explorer {
    /** The block before the first one indexed. */
    const start: nat
    const dbc: DBClient
    var currentHeight: nat
    var blocks: map<nat, Header>

    /** The tables the indexing started from. */
    ghost const base: Database
    /** The last block indexed, meaningful once a block row exists. */
    ghost var head: Header
    /** The first stored block was indexed as well: a fork went down to it. */
    ghost var rooted: bool

    constructor (start: nat, dbc: DBClient)
      requires dbc.InStep() && Ordered(dbc.State()) && WrittenBy(dbc.State(), start)
      ensures Valid() && Faithful() && this.start == start && this.dbc == dbc && base == dbc.State() && blocks == map[]
      ensures head == First(start, [], 0)
    {
      this.start := start;
      this.dbc := dbc;
      currentHeight := start + 1;
      blocks := map[];
      base := dbc.State();
      head := First(start, [], 0);
      rooted := false;
    }

    /** The tables can be undone and were written by height `h`. */
    ghost predicate Sound(h: nat)
      reads dbc, dbc.drc20, dbc.meme20
    {
      dbc.InStep() && Ordered(dbc.State()) && WrittenBy(dbc.State(), h)
    }

    /** The stored blocks below the current height are the chain of `head`. */
    ghost predicate Linked()
      reads this
    {
      && currentHeight > start
      && WrittenBy(base, start)
      && FirstOf(head).height == start
      && Height(head) == currentHeight - 1
      && (start !in blocks ==> blocks == map[] && head.First? && !rooted)
      && (start in blocks ==> Stored(blocks, head))
    }

    ghost predicate Valid()
      reads this, dbc, dbc.drc20, dbc.meme20
    {
      Linked() && Sound(currentHeight - 1)
    }

    /** The tables are what indexing the stored chain from scratch gives. */
    ghost predicate Faithful()
      reads this, dbc, dbc.drc20, dbc.meme20
      requires Linked()
    {
      dbc.State() == Replay(base, rooted, head)
    }

    /** The node's chain continues the stored one. */
    ghost predicate Continues(view: Header)
      reads this
      requires Linked() && FirstOf(view).height == start
    {
      Height(view) >= currentHeight && Ancestor(view, currentHeight - 1) == head
    }

    /** `c` is the highest stored height at which the node's chain and the stored one have the same block. */
    ghost predicate Common(view: Header, c: nat)
      reads this
      requires Linked() && FirstOf(view).height == start
    {
      && Height(view) >= currentHeight
      && start <= c < currentHeight
      && Ancestor(view, c) == Ancestor(head, c)
      && forall n | c < n < currentHeight :: Ancestor(view, n) != Ancestor(head, n)
    }

    /** The search of `forkBack`: down from the current height until the node's block and the stored one agree; it fails
        only when they agree nowhere. */
    method FindCommon(view: Header) returns (found: bool, height: nat)
      requires Linked() && start in blocks && FirstOf(view).height == start && Height(view) >= currentHeight
      requires !Continues(view)
      ensures found ==> Common(view, height)
      ensures !found ==> forall n | start <= n < currentHeight :: Ancestor(view, n) != Ancestor(head, n)
    {
      hide WrittenBy;
      OwnAncestor(head);
      height := currentHeight;
      var blockHash := Ancestor(view, height);
      var localHash := blocks[height - 1];
      while blockHash != localHash
        invariant start <= height <= currentHeight
        invariant blockHash == Ancestor(view, height)
        invariant localHash == if height < currentHeight then Ancestor(head, height) else head
        invariant forall n | height < n < currentHeight :: Ancestor(view, n) != Ancestor(head, n)
        decreases height
      {
        if height == start { return false, height; }
        height := height - 1;
        blockHash := Ancestor(view, height);
        if height in blocks {
          localHash := blocks[height];
        }
      }
      found := true;
    }

    /** `forkBack`. It looks for the highest stored height at which the node has the same block, and forks to it;
        nothing is written when it fails, except the first block row when there is none yet. */
    method ForkBack(view: Header) returns (ok: bool, ghost c: nat)
      requires Valid() && FirstOf(view).height == start
      modifies this, dbc, dbc.drc20, dbc.meme20
      ensures !ok ==> Valid() && dbc.State() == old(dbc.State()) && currentHeight == old(currentHeight)
      ensures !ok && old(start in blocks) ==> blocks == old(blocks) && head == old(head)
      ensures old(start !in blocks) ==> !ok && (Height(view) >= currentHeight ==> start in blocks && Continues(view))
      ensures Height(view) < old(currentHeight) ==> !ok && blocks == old(blocks) && head == old(head)
      ensures rooted == old(rooted)
      ensures ok ==> Height(view) >= old(currentHeight) && Sound(currentHeight)
      ensures ok ==> blocks == old(blocks) && head == old(head)
      ensures ok && old(Continues(view)) ==> currentHeight == old(currentHeight) && dbc.State() == old(dbc.State())
      ensures ok && !old(Continues(view)) ==>
                old(Common(view, c)) && currentHeight == c && Fork(old(dbc.State()), c) == Ok(dbc.State())
    {
      hide Fork, WrittenBy, Replay, Ordered, Common, DBClient.InStep, DBClient.State, Ancestor;
      OwnAncestor(head);
      ok, c := false, 0;
      if Height(view) < currentHeight { return; }
      var block := Ancestor(view, currentHeight);
      ParentAt(view, currentHeight);
      if currentHeight - 1 !in blocks {
        StoredOne(blocks, block.prev);
        blocks := blocks[currentHeight - 1 := block.prev];
        head := block.prev;
        return;
      }
      if blocks[currentHeight - 1] == block.prev {
        WrittenLater(dbc.State(), currentHeight - 1, currentHeight);
        ok := true;
        return;
      }
      var height;
      ok, height := FindCommon(view);
      if !ok { return; }
      c := height;
      ok := ForkTo(height, currentHeight - 1);
    }

    /** The database transaction of `forkBack`. */
    method ForkTo(height: nat, ghost written: nat) returns (ok: bool)
      requires Sound(written)
      modifies this`currentHeight, dbc, dbc.drc20, dbc.meme20
      ensures if ok then Sound(height) && currentHeight == height && Fork(old(dbc.State()), height) == Ok(dbc.State())
              else Sound(written) && dbc.State() == old(dbc.State()) && currentHeight == old(currentHeight)
    {
      hide Fork, Ordered, DBClient.InStep;
      dbc.InStepLogged();
      if Fork(dbc.State(), height).Ok? {
        ForkOrdered(dbc.State(), height);
      }
      ok := dbc.ForkOrRollback(height);
      if ok {
        currentHeight := height;
      }
    }

    /** The transactions of one block, in order. */
    method ExecuteBlock(block: Header)
      requires Sound(currentHeight)
      modifies dbc, dbc.drc20, dbc.meme20
      ensures Sound(currentHeight)
      ensures dbc.State() == ExecuteAll(old(dbc.State()), block.txs, currentHeight)
    {
      hide ExecuteTx, Ordered, WrittenBy, TicksLogged, DBClient.InStep;
      dbc.InStepLogged();
      BlockChronicle(dbc.State(), block.txs, currentHeight);
      ExecuteAllWritten(dbc.State(), block.txs, currentHeight);
      var i := 0;
      while i < |block.txs|
        invariant 0 <= i <= |block.txs|
        invariant dbc.InStep()
        invariant dbc.State() == ExecuteAll(old(dbc.State()), block.txs[..i], currentHeight)
      {
        ExecuteAppend(old(dbc.State()), block.txs[..i], [block.txs[i]], currentHeight);
        assert block.txs[..i + 1] == block.txs[..i] + [block.txs[i]];
        dbc.Execute(block.txs[i], currentHeight);
        i := i + 1;
      }
      assert block.txs[..i] == block.txs;
    }

    /** Execute the node's block at the current height and store it: a new one, or (`again`) the one just forked to. */
    method ScanBlock(view: Header, ghost again: bool)
      requires FirstOf(view).height == start == FirstOf(head).height && start <= currentHeight <= Height(view)
      requires WrittenBy(base, start) && start in blocks && Stored(blocks, head) && Sound(currentHeight)
      requires if again then currentHeight <= Height(head) && Ancestor(view, currentHeight) == Ancestor(head, currentHeight)
               else currentHeight == Height(head) + 1 && Ancestor(view, Height(head)) == head
      modifies this, dbc, dbc.drc20, dbc.meme20
      ensures Valid() && start in blocks
      ensures head == Ancestor(view, old(currentHeight)) && currentHeight == old(currentHeight) + 1
      ensures dbc.State() == ExecuteAll(old(dbc.State()), head.txs, old(currentHeight))
      ensures rooted == (old(rooted) || (again && head.First?))
      ensures !again ==> head.Link? && head.prev == old(head)
    {
      hide ExecuteAll, Replay, Fork, WrittenBy, Stored, Ancestor, Ordered, DBClient.InStep;
      OwnAncestor(head);
      var block := Ancestor(view, currentHeight);
      StoredNext(blocks, head, view, currentHeight, if again then currentHeight else currentHeight - 1);
      if !again {
        ParentAt(view, currentHeight);
      }
      ExecuteBlock(block);
      blocks := blocks[currentHeight := block];
      rooted := rooted || (again && block.First?);
      head := block;
      currentHeight := currentHeight + 1;
    }

    /** One iteration of `scan`, against a node whose tip is `view` throughout. However the node has reorganised since
        the last one, a successful iteration leaves the stored blocks equal to the node's chain; and it leaves the
        tables equal to indexing that chain from scratch whenever the fork it made, if any, could be exact. */
    method Iterate(view: Header) returns (ok: bool, ghost c: nat)
      requires Valid() && FirstOf(view).height == start
      modifies this, dbc, dbc.drc20, dbc.meme20
      ensures Valid()
      ensures !ok ==> dbc.State() == old(dbc.State()) && currentHeight == old(currentHeight)
      ensures !ok && old(start in blocks) ==> blocks == old(blocks) && head == old(head)
      ensures !ok ==> old(Faithful()) ==> Faithful()
      ensures old(start !in blocks) ==> !ok && (Height(view) >= currentHeight ==> start in blocks && Continues(view))
      ensures Height(view) < old(currentHeight) ==> !ok && blocks == old(blocks) && head == old(head)
      ensures ok ==> currentHeight - 1 <= Height(view) && head == Ancestor(view, currentHeight - 1)
      ensures ok && old(Continues(view)) ==> currentHeight == old(currentHeight) + 1 && (old(Faithful()) ==> Faithful())
      ensures ok && !old(Continues(view)) ==> old(Common(view, c)) && currentHeight == c + 1
      ensures (ok && !old(Continues(view)) && old(Faithful())
                 && Fork(old(dbc.State()), c) == Ok(Replay(base, old(rooted), Ancestor(old(head), c)))) ==> Faithful()
    {
      hide ExecuteAll, Replay, Fork, WrittenBy, Stored, Ancestor, Ordered, DBClient.InStep, DBClient.State;
      OwnAncestor(head);
      ok, c := ForkBack(view);
      if !ok {
        if old(start !in blocks) {
          FreshReplay(base, old(head));
          FreshReplay(base, head);
        }
        return;
      }
      ghost var forked, was := dbc.State(), rooted;
      ScanBlock(view, !old(Continues(view)));
      if old(Continues(view)) {
        ReplayNext(base, rooted, head);
      } else if forked == Replay(base, was, head) {
        ScannedTwice(base, was, head, forked);
      }
    }

    /** The last block indexed is on the chain of `view`. */
    ghost predicate OnChain(view: Header)
      reads this
      requires Linked()
    {
      && FirstOf(view).height == start
      && currentHeight - 1 <= Height(view)
      && head == Ancestor(view, currentHeight - 1)
    }

    /** An iteration over plain blocks: the tables stay equal to indexing the stored chain from scratch, whatever
        reorganisation the view shows. */
    method IteratePlain(view: Header) returns (ok: bool)
      requires Valid() && Faithful() && Fit(base, start) && PlainChain(head)
      requires FirstOf(view).height == start && PlainChain(view)
      modifies this, dbc, dbc.drc20, dbc.meme20
      ensures Valid() && Faithful() && PlainChain(head)
      ensures ok ==> OnChain(view) && currentHeight <= old(currentHeight) + 1
      ensures !ok ==> currentHeight == old(currentHeight)
    {
      hide Replay, Fork, Fit, Stored, PlainChain, WrittenBy, Ordered, DBClient.InStep, DBClient.State;
      ghost var was, r := head, rooted;
      ghost var continues := Continues(view);
      ghost var c;
      ok, c := Iterate(view);
      if !ok {
        if head != was {
          PlainPrefix(view, start);
          assert head == Ancestor(view, start);
        }
        return;
      }
      if !continues {
        PlainForks(base, r, was, c);
      }
      PlainPrefix(view, currentHeight - 1);
    }

    /** `scan`: up to a hundred blocks ahead of where it starts, one view of the node per iteration; `used` of the views
        were seen. It stops at a failed iteration, at its last height, or when the views run out. */
    method Scan(blockCount: nat, views: seq<Header>) returns (ok: bool, used: nat)
      requires Valid() && Faithful() && Fit(base, start) && PlainChain(head)
      requires forall v <- views :: FirstOf(v).height == start && PlainChain(v)
      modifies this, dbc, dbc.drc20, dbc.meme20
      ensures Valid() && Faithful() && PlainChain(head)
      ensures used <= |views|
      ensures ok && used > 0 ==> OnChain(views[used - 1])
      ensures used == 0 ==> ok && currentHeight == old(currentHeight)
      ensures currentHeight <= old(currentHeight) + 100
      ensures currentHeight <= old(currentHeight) || currentHeight <= blockCount
      ensures ok ==> used == |views| || currentHeight >= blockCount || currentHeight == old(currentHeight) + 100
    {
      hide Replay, Fit, PlainChain, Stored, WrittenBy, Ancestor, Sound;
      var last := if blockCount - currentHeight > 100 then currentHeight + 100 else blockCount;
      used := 0;
      ok := true;
      while currentHeight < last && used < |views|
        invariant 0 <= used <= |views| && ok
        invariant used == 0 ==> currentHeight == old(currentHeight)
        invariant currentHeight <= old(currentHeight) || currentHeight <= last
        invariant Valid() && Faithful() && PlainChain(head)
        invariant used > 0 ==> OnChain(views[used - 1])
        decreases |views| - used
      {
        ok := IteratePlain(views[used]);
        used := used + 1;
        if !ok { return; }
      }
    }
  }

  /** An explorer over empty tables with a WDOGE row is ready to scan. */
  method NewExplorer(start: nat, max: nat) returns (e: Explorer)
    ensures fresh(e) && e.start == start && e.Valid() && e.Faithful() && Fit(e.base, start) && PlainChain(e.head)
  {
    var dbc := new DBClient(map[]);
    var ok := dbc.CreateTick(WDOGE, max, max);
    assert ok && dbc.State() == Fresh(max);
    FreshStart(max, start);
    assert Ordered(dbc.State());
    e := new Explorer(start, dbc);
  }

  lemma ParentAt(view: Header, n: nat)
    requires FirstOf(view).height < n <= Height(view)
    ensures Ancestor(view, n).Link? && Ancestor(view, n).prev == Ancestor(view, n - 1)
  {
    AncestorTwice(view, n, n - 1);
  }

  /** The row of a first block alone. */
  lemma StoredOne(blocks: map<nat, Header>, b: Header)
    requires Height(b) == FirstOf(b).height
    ensures Stored(blocks[Height(b) := b], b) && b.First?
  {
    LinkAbove(b);
  }

  lemma OwnAncestor(b: Header)
    ensures Ancestor(b, Height(b)) == b
  {}

  /** Before any block is indexed the tables are the starting ones. */
  lemma FreshReplay(base: Database, b: Header)
    requires Height(b) == FirstOf(b).height
    ensures Replay(base, false, b) == base
  {
    LinkAbove(b);
  }

  lemma LinkAbove(b: Header)
    ensures b.Link? ==> FirstOf(b).height < Height(b)
  {
    if b.Link? {
      assert FirstOf(b) == FirstOf(b.prev);
    }
  }

  lemma ReplayNext(base: Database, rooted: bool, b: Header)
    requires b.Link?
    ensures Replay(base, rooted, b) == ExecuteAll(Replay(base, rooted, b.prev), b.txs, Height(b))
  {}

  /** The fork's block is scanned a second time; only a first block that was never indexed makes a difference. */
  lemma ScannedTwice(base: Database, rooted: bool, block: Header, forked: Database)
    requires forked == Replay(base, rooted, block)
    ensures ExecuteAll(forked, block.txs, Height(block)) == Replay(base, rooted || block.First?, block)
  {
    hide ExecuteAll;
    var before := if block.First? then base else Replay(base, rooted, block.prev);
    Rescan(before, block.txs, [], Height(block));
    assert block.txs + [] == block.txs;
  }

  /** The rows of a chain, from its first block to its last. */
  ghost predicate Stored(blocks: map<nat, Header>, head: Header) {
    forall n | FirstOf(head).height <= n <= Height(head) :: n in blocks && blocks[n] == Ancestor(head, n)
  }

  /** Overwriting the row above a common block, or its own row, stores the node's chain up to there. */
  lemma StoredNext(blocks: map<nat, Header>, head: Header, view: Header, n: nat, c: nat)
    requires Stored(blocks, head) && FirstOf(view).height == FirstOf(head).height <= c <= Height(head)
    requires c <= n <= Height(view) && n <= c + 1 && Ancestor(view, c) == Ancestor(head, c)
    ensures Stored(blocks[n := Ancestor(view, n)], Ancestor(view, n))
  {
    var block := Ancestor(view, n);
    forall m | FirstOf(block).height <= m < n
      ensures m in blocks && blocks[m] == Ancestor(block, m)
    {
      AncestorTwice(view, n, m);
      AgreeBelow(view, head, c, m);
    }
  }
}
