/** An escrowed limit order: create, partial fills at the listed price, cancel. */
module Orders {
  import opened Results
  import opened Names
  import opened Ledger

  /** A row of `exchange_collect` with the ledger it shares; `sold` and `received` are what trades alone moved. */
  datatype Order = Order(
    id: string, tick0: Tick, tick1: Tick, amt0: nat, amt1: nat, fin0: nat, fin1: nat, holder: Signer,
    tokens: Tokens, sold: nat, received: nat)

  function Home(o: Order): Party {
    OrderReserves(o.id)
  }

  /** `VerifyExchangeCreate` and `ExchangeCreate`. */
  function Created(tokens: Tokens, id: string, holder: Signer, tick0: Tick, tick1: Tick, amt0: int, amt1: int): Result<Order> {
    if tick0 !in tokens || tick1 !in tokens || amt0 < 1 || amt1 < 1 then Failed
    else
      var ts :- Transfer(tokens, tick0, holder, OrderReserves(id), amt0);
      Ok(Order(id, tick0, tick1, amt0, amt1, 0, 0, holder, ts, 0, 0))
  }

  /** What `pay` of the second token buys: the listed price, floored, and no more than what is left. */
  function Bought(o: Order, pay: nat): int
    requires o.amt1 > 0
  {
    var left, out := o.amt0 - o.fin0, pay * o.amt0 / o.amt1;
    if left < out then left else out
  }

  /** `VerifyExchangeTrade` and `ExchangeTrade`: the buyer pays the owner, the escrow pays the buyer. */
  function Traded(o: Order, buyer: Signer, pay: int): Result<Order>
    requires o.amt1 > 0
  {
    if pay < 1 || buyer == o.holder then Failed
    else
      var out := Bought(o, pay);
      var paid :- Transfer(o.tokens, o.tick1, buyer, o.holder, pay);
      var ts :- Transfer(paid, o.tick0, Home(o), buyer, out);
      Ok(o.(fin0 := o.fin0 + out, fin1 := o.fin1 + pay, tokens := ts, sold := o.sold + out, received := o.received + pay))
  }

  /** `VerifyExchangeCancel` and `ExchangeCancel`: the part named goes to the sender, whoever that is. */
  function Cancelled(o: Order, sender: Signer, amt: int): Result<Order> {
    if amt < 1 then Failed
    else
      var ts :- Transfer(o.tokens, o.tick0, Home(o), sender, amt);
      Ok(o.(fin0 := o.fin0 + amt, tokens := ts))
  }

  // ---------------------------------------------------------------------------------------------------------------
  // The invariant
  // ---------------------------------------------------------------------------------------------------------------

  /** The escrow holds exactly what is not filled, and nothing was ever sold under the listed price. */
  ghost predicate Valid(o: Order) {
    && o.amt0 > 0 && o.amt1 > 0
    && Balance(o.tokens, o.tick0, Home(o)) == o.amt0 - o.fin0
    && o.sold <= o.fin0
    && o.fin1 == o.received
    && o.sold * o.amt1 <= o.received * o.amt0
  }

  lemma CreateValid(tokens: Tokens, id: string, holder: Signer, tick0: Tick, tick1: Tick, amt0: int, amt1: int)
    requires Created(tokens, id, holder, tick0, tick1, amt0, amt1).Ok? && Balance(tokens, tick0, OrderReserves(id)) == 0
    ensures Valid(Created(tokens, id, holder, tick0, tick1, amt0, amt1).value)
  {}

  lemma PriceKept(sold: nat, received: nat, amt0: nat, amt1: nat, out: int, pay: nat)
    requires amt1 > 0 && sold * amt1 <= received * amt0 && out <= pay * amt0 / amt1
    ensures (sold + out) * amt1 <= (received + pay) * amt0
  {
    assert pay * amt0 / amt1 * amt1 <= pay * amt0;
    assert out * amt1 <= pay * amt0 / amt1 * amt1;
    assert (sold + out) * amt1 == sold * amt1 + out * amt1;
    assert (received + pay) * amt0 == received * amt0 + pay * amt0;
  }

  lemma TradeMoves(ts: Tokens, tick: Tick, from: Address, to: Address, amt: int, t: Tick, a: Address)
    requires Transfer(ts, tick, from, to, amt).Ok?
    ensures Balance(Transfer(ts, tick, from, to, amt).value, t, a) == Balance(ts, t, a)
            + (if t == tick && a == to then amt else 0) - (if t == tick && a == from then amt else 0)
    ensures 1 <= amt <= Balance(ts, tick, from) && from != to
  {}

  /** A trade moves exactly the payment to the owner and, out of the escrow, what it buys: the listed price's floor for
      the payment, or all that is left if that is less. */
  lemma TradeValid(o: Order, buyer: Signer, pay: int)
    requires Valid(o) && Traded(o, buyer, pay).Ok?
    ensures var n := Traded(o, buyer, pay).value;
            var left, out := o.amt0 - o.fin0, n.fin0 - o.fin0;
            && Valid(n)
            && n == o.(fin0 := n.fin0, fin1 := o.fin1 + pay, tokens := n.tokens, sold := o.sold + out,
                       received := o.received + pay)
            && 1 <= out <= left && out * o.amt1 <= pay * o.amt0
            && (out == left || pay * o.amt0 < (out + 1) * o.amt1)
            && forall t, a :: Balance(n.tokens, t, a) == Balance(o.tokens, t, a)
                 + (if t == o.tick1 && a == o.holder then pay else 0) - (if t == o.tick1 && a == buyer then pay else 0)
                 + (if t == o.tick0 && a == buyer then out else 0) - (if t == o.tick0 && a == Home(o) then out else 0)
  {
    hide Transfer, Balance, Bought;
    var paid := Transfer(o.tokens, o.tick1, buyer, o.holder, pay).value;
    var out := Bought(o, pay);
    forall t, a
      ensures Balance(Traded(o, buyer, pay).value.tokens, t, a) == Balance(o.tokens, t, a)
              + (if t == o.tick1 && a == o.holder then pay else 0) - (if t == o.tick1 && a == buyer then pay else 0)
              + (if t == o.tick0 && a == buyer then out else 0) - (if t == o.tick0 && a == Home(o) then out else 0)
    {
      TradeMoves(o.tokens, o.tick1, buyer, o.holder, pay, t, a);
      TradeMoves(paid, o.tick0, Home(o), buyer, out, t, a);
    }
    TradeMoves(paid, o.tick0, Home(o), buyer, out, o.tick0, buyer);
    BoughtIs(o, pay);
    PriceKept(o.sold, o.received, o.amt0, o.amt1, out, pay);
  }

  lemma BoughtIs(o: Order, pay: nat)
    requires o.amt1 > 0
    ensures var out, left := Bought(o, pay), o.amt0 - o.fin0;
            && out <= left && out <= pay * o.amt0 / o.amt1 && out * o.amt1 <= pay * o.amt0
            && (out == left || pay * o.amt0 < (out + 1) * o.amt1)
  {
    var q := pay * o.amt0 / o.amt1;
    assert q * o.amt1 <= pay * o.amt0 < (q + 1) * o.amt1;
    MulUp(Bought(o, pay), q, o.amt1);
  }

  lemma MulUp(a: int, b: int, c: nat)
    requires a <= b
    ensures a * c <= b * c
  {}

  /** A cancel hands the part named to its sender. */
  lemma CancelValid(o: Order, sender: Signer, amt: int)
    requires Valid(o) && Cancelled(o, sender, amt).Ok?
    ensures var n := Cancelled(o, sender, amt).value;
            && Valid(n)
            && n == o.(fin0 := o.fin0 + amt, tokens := n.tokens)
            && forall t, a :: Balance(n.tokens, t, a) == Balance(o.tokens, t, a)
                 + (if t == o.tick0 && a == sender then amt else 0) - (if t == o.tick0 && a == Home(o) then amt else 0)
  {}

  /** An order is accepted if and only if both tokens exist, it asks for something, and its owner has what it offers,
      which then is in the order's escrow. */
  lemma CreateIff(tokens: Tokens, id: string, holder: Signer, tick0: Tick, tick1: Tick, amt0: int, amt1: int)
    ensures var r := Created(tokens, id, holder, tick0, tick1, amt0, amt1);
            && (r.Ok? <==> tick1 in tokens && 1 <= amt0 <= Balance(tokens, tick0, holder) && amt1 >= 1)
            && (r.Ok? ==>
                  && r.value == Order(id, tick0, tick1, amt0, amt1, 0, 0, holder, r.value.tokens, 0, 0)
                  && forall t, a :: Balance(r.value.tokens, t, a) == Balance(tokens, t, a)
                       + (if t == tick0 && a == OrderReserves(id) then amt0 else 0)
                       - (if t == tick0 && a == holder then amt0 else 0))
  {}

  /** A cancel is accepted, from any sender, if and only if the order has that much left. */
  lemma CancelIff(o: Order, sender: Signer, amt: int)
    requires Valid(o)
    ensures Cancelled(o, sender, amt).Ok? <==> 1 <= amt <= o.amt0 - o.fin0
  {}

  /** A trade is accepted if and only if it comes from somebody else who can pay, and buys something. */
  lemma TradeIff(o: Order, buyer: Signer, pay: int)
    requires Valid(o)
    ensures Traded(o, buyer, pay).Ok? <==>
            && buyer != o.holder && 1 <= pay <= Balance(o.tokens, o.tick1, buyer)
            && pay * o.amt0 >= o.amt1 && o.fin0 < o.amt0
  {
    hide Transfer, Balance;
    if pay >= 1 {
      assert pay * o.amt0 >= 0;
      assert pay * o.amt0 / o.amt1 >= 1 <==> pay * o.amt0 >= o.amt1;
      TransferIff(o.tokens, o.tick1, buyer, o.holder, pay);
      if buyer != o.holder && pay <= Balance(o.tokens, o.tick1, buyer) {
        TradeMoves(o.tokens, o.tick1, buyer, o.holder, pay, o.tick0, Home(o));
        TransferIff(Transfer(o.tokens, o.tick1, buyer, o.holder, pay).value, o.tick0, Home(o), buyer, Bought(o, pay));
      }
    }
  }

  lemma TransferIff(ts: Tokens, tick: Tick, from: Address, to: Address, amt: int)
    ensures Transfer(ts, tick, from, to, amt).Ok? <==> from != to && 1 <= amt <= Balance(ts, tick, from)
  {}

  // ---------------------------------------------------------------------------------------------------------------
  // Every run
  // ---------------------------------------------------------------------------------------------------------------

  /** `Others` is whatever else happens on the ledger meanwhile, away from the order's escrow. */
  datatype Op = TradeOp(buyer: Signer, pay: int) | CancelOp(sender: Signer, amt: int) | Others(tokens: Tokens)

  ghost predicate Allowed(o: Order, op: Op) {
    op.Others? ==> Balance(op.tokens, o.tick0, Home(o)) == Balance(o.tokens, o.tick0, Home(o))
  }

  function Do(o: Order, op: Op): Order {
    match op
    case TradeOp(buyer, pay) =>
      if o.amt1 > 0 && Traded(o, buyer, pay).Ok? then Traded(o, buyer, pay).value else o
    case CancelOp(sender, amt) =>
      if Cancelled(o, sender, amt).Ok? then Cancelled(o, sender, amt).value else o
    case Others(ts) => o.(tokens := ts)
  }

  function DoAll(o: Order, ops: seq<Op>): Order
    decreases |ops|
  {
    if ops == [] then o else DoAll(Do(o, ops[0]), ops[1..])
  }

  ghost predicate AllAllowed(o: Order, ops: seq<Op>)
    decreases |ops|
  {
    ops == [] || (Allowed(o, ops[0]) && AllAllowed(Do(o, ops[0]), ops[1..]))
  }

  lemma {:induction false} DoAllValid(o: Order, ops: seq<Op>)
    requires Valid(o) && AllAllowed(o, ops)
    ensures var n := DoAll(o, ops);
            Valid(n) && n.id == o.id && n.tick0 == o.tick0 && n.amt0 == o.amt0 && n.amt1 == o.amt1
    decreases |ops|
  {
    if ops != [] {
      hide Transfer, Traded, Cancelled;
      match ops[0] {
        case TradeOp(buyer, pay) =>
          if Traded(o, buyer, pay).Ok? {
            TradeValid(o, buyer, pay);
            SameOrder(o, buyer, pay);
          }
        case CancelOp(sender, amt) =>
          if Cancelled(o, sender, amt).Ok? {
            CancelValid(o, sender, amt);
            SameCancelled(o, sender, amt);
          }
        case Others(_) =>
      }
      DoAllValid(Do(o, ops[0]), ops[1..]);
    }
  }

  /** From its creation, over any run of trades and cancels, by anybody, among any other traffic: the escrow is what is
      left of the order, it never goes negative, and the trades together never sold below the listed price. */
  lemma OrderSafe(tokens: Tokens, id: string, holder: Signer, tick0: Tick, tick1: Tick, amt0: int, amt1: int,
                  ops: seq<Op>)
    requires Created(tokens, id, holder, tick0, tick1, amt0, amt1).Ok? && Balance(tokens, tick0, OrderReserves(id)) == 0
    requires AllAllowed(Created(tokens, id, holder, tick0, tick1, amt0, amt1).value, ops)
    ensures var n := DoAll(Created(tokens, id, holder, tick0, tick1, amt0, amt1).value, ops);
            && Balance(n.tokens, tick0, OrderReserves(id)) == amt0 - n.fin0
            && n.fin0 <= amt0
            && n.sold * amt1 <= n.received * amt0
  {
    hide DoAll, AllAllowed, Balance, Transfer;
    CreateValid(tokens, id, holder, tick0, tick1, amt0, amt1);
    DoAllValid(Created(tokens, id, holder, tick0, tick1, amt0, amt1).value, ops);
  }

  lemma SameOrder(o: Order, buyer: Signer, pay: int)
    requires o.amt1 > 0 && Traded(o, buyer, pay).Ok?
    ensures var n := Traded(o, buyer, pay).value;
            n.id == o.id && n.tick0 == o.tick0 && n.amt0 == o.amt0 && n.amt1 == o.amt1
  {}

  lemma SameCancelled(o: Order, sender: Signer, amt: int)
    requires Cancelled(o, sender, amt).Ok?
    ensures var n := Cancelled(o, sender, amt).value;
            n.id == o.id && n.tick0 == o.tick0 && n.amt0 == o.amt0 && n.amt1 == o.amt1
  {}

  lemma Unfilled(o: Order)
    requires Valid(o)
    ensures o.amt1 > 0 && o.fin0 <= o.amt0
  {}

  lemma Quotient(a: nat, b: nat, c: nat)
    requires c > 0
    ensures a * b / c >= 0
  {
    assert a * b >= 0;
  }

  // ---------------------------------------------------------------------------------------------------------------
  // In place
  // ---------------------------------------------------------------------------------------------------------------

  /** The order's row and the ledger, updated in place; a method that returns false has its writes rolled back by its
      caller's database transaction. */
  class OrderTable {
    const id: string
    const tick0: Tick
    const tick1: Tick
    const amt0: nat
    const amt1: nat
    const holder: Signer
    var fin0: nat
    var fin1: nat
    var tokens: Tokens
    ghost var sold: nat
    ghost var received: nat

    ghost function State(): Order
      reads this
    {
      Order(id, tick0, tick1, amt0, amt1, fin0, fin1, holder, tokens, sold, received)
    }

    constructor (o: Order)
      ensures State() == o
    {
      id, tick0, tick1, amt0, amt1, holder := o.id, o.tick0, o.tick1, o.amt0, o.amt1, o.holder;
      fin0, fin1, tokens := o.fin0, o.fin1, o.tokens;
      sold, received := o.sold, o.received;
    }

    method TransferDrc20(tick: Tick, from: Address, to: Address, amt: int) returns (ok: bool)
      modifies this`tokens
      ensures ok == Transfer(old(tokens), tick, from, to, amt).Ok?
      ensures tokens == if ok then Transfer(old(tokens), tick, from, to, amt).value else old(tokens)
    {
      match Transfer(tokens, tick, from, to, amt)
      case Failed => ok := false;
      case Ok(ts) =>
        tokens := ts;
        ok := true;
    }

    /** `ExchangeTrade`: the row is written first, the transfers follow. */
    method Trade(buyer: Signer, pay: int) returns (ok: bool)
      requires Valid(State())
      modifies this
      ensures ok == Traded(old(State()), buyer, pay).Ok?
      ensures ok ==> State() == Traded(old(State()), buyer, pay).value
    {
      hide Transfer, Balance;
      ok := false;
      assert amt1 > 0 && fin0 <= amt0 by { Unfilled(State()); }
      if pay < 1 || buyer == holder { return; }
      var left := amt0 - fin0;
      Quotient(pay, amt0, amt1);
      var amt0Out := pay * amt0 / amt1;
      if left < amt0Out {
        amt0Out := left;
      }
      fin0 := fin0 + amt0Out;
      fin1 := fin1 + pay;
      sold := sold + amt0Out;
      received := received + pay;
      ok := TransferDrc20(tick1, buyer, holder, pay);
      if !ok { return; }
      ok := TransferDrc20(tick0, OrderReserves(id), buyer, amt0Out);
    }

    /** `ExchangeCancel`: the transfer first, then the row. */
    method Cancel(sender: Signer, amt: int) returns (ok: bool)
      modifies this
      ensures ok == Cancelled(old(State()), sender, amt).Ok?
      ensures State() == if ok then Cancelled(old(State()), sender, amt).value else old(State())
    {
      ok := false;
      if amt < 1 { return; }
      ok := TransferDrc20(tick0, OrderReserves(id), sender, amt);
      if !ok { return; }
      fin0 := fin0 + amt;
    }
  }
}
