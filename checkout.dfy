/**
 * The checkout transaction as a value: walking the cart in order, each line must find an
 * inventory row with enough stock (as already lowered by the earlier lines), its stock is
 * lowered, and one payment record is written for it under the shared checkout id. Any
 * failing line aborts the whole walk.
 */
module Checkout {
  import opened Wrappers
  import opened Cart
  import opened Ids

  /** The stock table: product id to units in stock. */
  type Inventory = map<string, int>

  /** The signed-in user held in the session. */
  datatype User = User(id: string, displayName: string, email: string)

  /** The member fields written into every payment record. */
  datatype Member = Member(id: Option<string>, name: string)

  /** One row of the payment table. */
  datatype Payment = Payment(
    paymentId: string,
    memberId: Option<string>,
    memberName: string,
    productId: string,
    amount: int,
    qty: int,
    checkoutId: string)

  /** Why a checkout was rolled back. */
  datatype CheckoutError = NoInventoryRecord | NotEnoughStock(productId: string)

  /** What a committed checkout produces: the new stock table and the new payment rows. */
  datatype Settlement = Settlement(inventory: Inventory, payments: seq<Payment>)

  /** The message the failed request answers with. */
  function ErrorMessage(e: CheckoutError): string {
    match e
    case NoInventoryRecord => "No inventory record for product"
    case NotEnoughStock(p) => "Not enough stock for " + p
  }

  /** The answer of a rolled-back checkout tells which error it was and, for low stock, which product. */
  lemma ErrorMessageInjective(e1: CheckoutError, e2: CheckoutError)
    ensures ErrorMessage(e1) == ErrorMessage(e2) ==> e1 == e2
  {
    var prefix := "Not enough stock for ";
    if e1.NotEnoughStock? && e2.NotEnoughStock? {
      assert ErrorMessage(e1)[|prefix|..] == e1.productId;
      assert ErrorMessage(e2)[|prefix|..] == e2.productId;
    } else if e1.NotEnoughStock? || e2.NotEnoughStock? {
      assert ErrorMessage(NoInventoryRecord)[2] == ' ';
      assert (prefix + (if e1.NotEnoughStock? then e1.productId else e2.productId))[2] == 't';
    }
  }

  /** `user?.id || null`: the member id, absent when there is no user or the id is empty. */
  function MemberId(user: Option<User>): (r: Option<string>)
    ensures r.Some? ==> r.value != ""
  {
    match user
    case Some(u) => if u.id != "" then Some(u.id) else None
    case None => None
  }

  /** `display_name || email || "Guest"`: the first non-empty of the two, else "Guest". */
  function MemberName(user: Option<User>): (r: string)
    ensures r != ""
    ensures user.Some? && user.value.displayName != "" ==> r == user.value.displayName
    ensures user.Some? && user.value.displayName == "" && user.value.email != "" ==> r == user.value.email
    ensures user.None? || (user.value.displayName == "" && user.value.email == "") ==> r == "Guest"
  {
    match user
    case Some(u) =>
      if u.displayName != "" then u.displayName
      else if u.email != "" then u.email
      else "Guest"
    case None => "Guest"
  }

  predicate StockNonNegative(inv: Inventory) {
    forall p :: p in inv ==> inv[p] >= 0
  }

  /** The units of product p the lines of `cart` ask for. */
  function QtyFor(cart: seq<Line>, p: string): int {
    if cart == [] then 0
    else (if cart[0].id == p then cart[0].qty else 0) + QtyFor(cart[1..], p)
  }

  /** The stock table after one line's decrement. */
  function Take(inv: Inventory, line: Line): Inventory
    requires line.id in inv
  {
    inv[line.id := inv[line.id] - line.qty]
  }

  /**
   * The stock walk: each line in cart order looks up its row, fails if there is none or if
   * the row holds fewer units than the line asks for, and otherwise lowers it.
   */
  function StockAfter(cart: seq<Line>, inv: Inventory): Result<Inventory, CheckoutError>
    decreases |cart|
  {
    if cart == [] then Ok(inv)
    else if cart[0].id !in inv then Err(NoInventoryRecord)
    else if inv[cart[0].id] < cart[0].qty then Err(NotEnoughStock(cart[0].id))
    else StockAfter(cart[1..], Take(inv, cart[0]))
  }

  /** The payment row for one line. */
  function Record(line: Line, draw: Draw, checkoutId: string, member: Member): Payment {
    Payment(PaymentId(draw), member.id, member.name, line.id, line.qty * line.price, line.qty, checkoutId)
  }

  /** The payment rows of a committed checkout, one per line, with the line's own random draw. */
  function PaymentsFor(cart: seq<Line>, draws: seq<Draw>, checkoutId: string, member: Member): seq<Payment>
    requires |draws| == |cart|
  {
    if cart == [] then []
    else [Record(cart[0], draws[0], checkoutId, member)] + PaymentsFor(cart[1..], draws[1..], checkoutId, member)
  }

  function SumAmounts(ps: seq<Payment>): int {
    if ps == [] then 0 else ps[0].amount + SumAmounts(ps[1..])
  }

  /** The whole checkout: the new stock and new payment rows, or the error that rolls it back. */
  function Settle(cart: seq<Line>, inv: Inventory, checkoutId: string, draws: seq<Draw>, member: Member)
    : Result<Settlement, CheckoutError>
    requires |draws| == |cart|
  {
    match StockAfter(cart, inv)
    case Err(e) => Err(e)
    case Ok(inv') => Ok(Settlement(inv', PaymentsFor(cart, draws, checkoutId, member)))
  }

  /** Line k fits: its product has a row holding enough units after the earlier lines took theirs. */
  predicate LineFits(cart: seq<Line>, inv: Inventory, k: nat)
    requires k < |cart|
  {
    cart[k].id in inv && cart[k].qty <= inv[cart[k].id] - QtyFor(cart[..k], cart[k].id)
  }

  /** Every line fits. */
  predicate Feasible(cart: seq<Line>, inv: Inventory) {
    forall k :: 0 <= k < |cart| ==> LineFits(cart, inv, k)
  }

  /**
   * On success every product's stock drops by exactly the units its lines asked for, the
   * table keeps its rows, and every line had a row.
   */
  lemma {:induction false} StockAfterOk(cart: seq<Line>, inv: Inventory, inv': Inventory)
    requires StockAfter(cart, inv) == Ok(inv')
    ensures inv'.Keys == inv.Keys
    ensures forall p :: p in inv ==> inv'[p] == inv[p] - QtyFor(cart, p)
    ensures forall k :: 0 <= k < |cart| ==> cart[k].id in inv
    decreases |cart|
  {
    if cart != [] {
      var inv1 := Take(inv, cart[0]);
      StockAfterOk(cart[1..], inv1, inv');
      forall k | 0 <= k < |cart| ensures cart[k].id in inv {
        if k > 0 { assert cart[k] == cart[1..][k - 1]; }
      }
    }
  }

  /** A successful walk never drives a non-negative stock table negative. */
  lemma {:induction false} StockStaysNonNegative(cart: seq<Line>, inv: Inventory, inv': Inventory)
    requires StockNonNegative(inv) && StockAfter(cart, inv) == Ok(inv')
    ensures StockNonNegative(inv')
    decreases |cart|
  {
    if cart != [] {
      StockStaysNonNegative(cart[1..], Take(inv, cart[0]), inv');
    }
  }

  /** Line k is the first line that does not fit, and `e` is the error it raises. */
  predicate FailsFirstAt(cart: seq<Line>, inv: Inventory, e: CheckoutError, k: nat)
    requires k < |cart|
  {
    (forall j :: 0 <= j < k ==> LineFits(cart, inv, j)) && !LineFits(cart, inv, k) &&
    e == (if cart[k].id !in inv then NoInventoryRecord else NotEnoughStock(cart[k].id))
  }

  /** A failing walk has a first line that does not fit, and that line decides the error. */
  lemma {:induction false} FirstFailure(cart: seq<Line>, inv: Inventory, e: CheckoutError) returns (k: nat)
    requires StockAfter(cart, inv) == Err(e)
    ensures k < |cart| && FailsFirstAt(cart, inv, e, k)
    decreases |cart|
  {
    assert cart[..0] == [];
    if cart[0].id !in inv || inv[cart[0].id] < cart[0].qty {
      k := 0;
    } else {
      var k' := FirstFailure(cart[1..], Take(inv, cart[0]), e);
      k := k' + 1;
      forall j | 0 < j < k ensures LineFits(cart, inv, j) {
        LineFitsStep(cart, inv, j);
      }
      LineFitsStep(cart, inv, k);
      assert cart[k] == cart[1..][k'];
    }
  }

  /**
   * A failing walk fails at the first line that does not fit: every earlier line fits, and
   * the error is "no inventory record" when that line has no row and "not enough stock"
   * naming that line's product otherwise.
   */
  lemma StockAfterErr(cart: seq<Line>, inv: Inventory, e: CheckoutError)
    requires StockAfter(cart, inv) == Err(e)
    ensures exists k :: 0 <= k < |cart| && FailsFirstAt(cart, inv, e, k)
    ensures e.NotEnoughStock? ==> exists k :: 0 <= k < |cart| && cart[k].id == e.productId
    ensures e.NoInventoryRecord? ==> exists k :: 0 <= k < |cart| && cart[k].id !in inv
  {
    var k := FirstFailure(cart, inv, e);
  }

  /** Once the first line has taken its units, line k fits exactly when it fits in the rest of the walk. */
  lemma LineFitsStep(cart: seq<Line>, inv: Inventory, k: nat)
    requires cart != [] && cart[0].id in inv && cart[0].qty <= inv[cart[0].id]
    requires 1 <= k < |cart|
    ensures LineFits(cart, inv, k) <==> LineFits(cart[1..], Take(inv, cart[0]), k - 1)
  {
    assert cart[..k][1..] == cart[1..][..k - 1];
    assert cart[k] == cart[1..][k - 1];
  }

  lemma FeasibleStep(cart: seq<Line>, inv: Inventory)
    requires cart != [] && cart[0].id in inv && cart[0].qty <= inv[cart[0].id]
    ensures Feasible(cart, inv) <==> Feasible(cart[1..], Take(inv, cart[0]))
  {
    var rest, inv1 := cart[1..], Take(inv, cart[0]);
    assert cart[..0] == [];
    if Feasible(rest, inv1) {
      forall k | 0 <= k < |cart| ensures LineFits(cart, inv, k) {
        if k > 0 {
          LineFitsStep(cart, inv, k);
        }
      }
    }
    if Feasible(cart, inv) {
      forall k | 0 <= k < |rest| ensures LineFits(rest, inv1, k) {
        LineFitsStep(cart, inv, k + 1);
      }
    }
  }

  /**
   * The walk succeeds exactly when every line fits once the earlier lines' units are taken
   * out: a checkout fails if and only if some line finds no row or too little stock.
   */
  lemma {:induction false} StockAfterOkIffFeasible(cart: seq<Line>, inv: Inventory)
    ensures StockAfter(cart, inv).Ok? <==> Feasible(cart, inv)
    decreases |cart|
  {
    if cart != [] {
      assert cart[..0] == [];
      if cart[0].id in inv && cart[0].qty <= inv[cart[0].id] {
        StockAfterOkIffFeasible(cart[1..], Take(inv, cart[0]));
        FeasibleStep(cart, inv);
      } else {
        assert !LineFits(cart, inv, 0);
      }
    }
  }

  lemma {:induction false} QtyForAbsent(cart: seq<Line>, p: string)
    requires forall j :: 0 <= j < |cart| ==> cart[j].id != p
    ensures QtyFor(cart, p) == 0
  {
    if cart != [] {
      QtyForAbsent(cart[1..], p);
    }
  }

  /**
   * In a cart with unique ids (as the handlers keep it), the checkout succeeds exactly when
   * every line's product has a row holding at least the line's quantity.
   */
  lemma StockAfterOkUnique(cart: seq<Line>, inv: Inventory)
    requires UniqueIds(cart)
    ensures StockAfter(cart, inv).Ok? <==>
            forall k :: 0 <= k < |cart| ==> cart[k].id in inv && cart[k].qty <= inv[cart[k].id]
  {
    StockAfterOkIffFeasible(cart, inv);
    forall k | 0 <= k < |cart|
      ensures QtyFor(cart[..k], cart[k].id) == 0
    {
      QtyForAbsent(cart[..k], cart[k].id);
    }
  }

  /** The payment rows follow the cart line by line. */
  lemma {:induction false} PaymentsLineByLine(cart: seq<Line>, draws: seq<Draw>, checkoutId: string, member: Member)
    requires |draws| == |cart|
    ensures |PaymentsFor(cart, draws, checkoutId, member)| == |cart|
    ensures forall k :: 0 <= k < |cart| ==>
              PaymentsFor(cart, draws, checkoutId, member)[k] == Record(cart[k], draws[k], checkoutId, member)
  {
    if cart != [] {
      PaymentsLineByLine(cart[1..], draws[1..], checkoutId, member);
      var ps := PaymentsFor(cart, draws, checkoutId, member);
      forall k | 0 <= k < |cart|
        ensures ps[k] == Record(cart[k], draws[k], checkoutId, member)
      {
        if k > 0 {
          assert ps[k] == PaymentsFor(cart[1..], draws[1..], checkoutId, member)[k - 1];
        }
      }
    }
  }

  /** Extending the cart by one line extends its payment rows by that line's row. */
  lemma PaymentsForSnoc(cart: seq<Line>, draws: seq<Draw>, checkoutId: string, member: Member)
    requires |draws| == |cart| && cart != []
    ensures PaymentsFor(cart, draws, checkoutId, member) ==
            PaymentsFor(cart[..|cart| - 1], draws[..|draws| - 1], checkoutId, member) +
            [Record(cart[|cart| - 1], draws[|draws| - 1], checkoutId, member)]
  {
    var n := |cart|;
    var front, fdraws := cart[..n - 1], draws[..n - 1];
    PaymentsLineByLine(cart, draws, checkoutId, member);
    PaymentsLineByLine(front, fdraws, checkoutId, member);
    var whole := PaymentsFor(cart, draws, checkoutId, member);
    var snoc := PaymentsFor(front, fdraws, checkoutId, member) + [Record(cart[n - 1], draws[n - 1], checkoutId, member)];
    forall k | 0 <= k < n ensures whole[k] == snoc[k] {
      if k < n - 1 {
        assert front[k] == cart[k] && fdraws[k] == draws[k];
      }
    }
  }

  /** The payment amounts of a checkout add up to the cart total. */
  lemma {:induction false} AmountsSumToTotal(cart: seq<Line>, draws: seq<Draw>, checkoutId: string, member: Member)
    requires |draws| == |cart|
    ensures SumAmounts(PaymentsFor(cart, draws, checkoutId, member)) == Total(cart)
  {
    if cart != [] {
      var qty, price := cart[0].qty, cart[0].price;
      assert qty * price == price * qty;
      AmountsSumToTotal(cart[1..], draws[1..], checkoutId, member);
      var head := Record(cart[0], draws[0], checkoutId, member);
      var tail := PaymentsFor(cart[1..], draws[1..], checkoutId, member);
      assert ([head] + tail)[1..] == tail;
      assert head.amount == qty * price;
    }
  }

  /**
   * A committed checkout: stock falls per product by the units ordered and stays
   * non-negative, there is one payment per line in cart order carrying the line's product,
   * quantity and amount and the one checkout id, and the amounts sum to the cart total.
   */
  lemma SettleCommitted(cart: seq<Line>, inv: Inventory, checkoutId: string, draws: seq<Draw>, member: Member, s: Settlement)
    requires |draws| == |cart|
    requires Settle(cart, inv, checkoutId, draws, member) == Ok(s)
    ensures s.inventory.Keys == inv.Keys
    ensures forall p :: p in inv ==> s.inventory[p] == inv[p] - QtyFor(cart, p)
    ensures StockNonNegative(inv) ==> StockNonNegative(s.inventory)
    ensures |s.payments| == |cart|
    ensures forall k :: 0 <= k < |cart| ==>
              s.payments[k].productId == cart[k].id && s.payments[k].qty == cart[k].qty &&
              s.payments[k].amount == cart[k].qty * cart[k].price &&
              s.payments[k].checkoutId == checkoutId && s.payments[k].paymentId == PaymentId(draws[k])
    ensures SumAmounts(s.payments) == Total(cart)
  {
    StockAfterOk(cart, inv, s.inventory);
    if StockNonNegative(inv) {
      StockStaysNonNegative(cart, inv, s.inventory);
    }
    PaymentsLineByLine(cart, draws, checkoutId, member);
    AmountsSumToTotal(cart, draws, checkoutId, member);
  }

  /**
   * Two checkouts committed one after the other never sell more units of a product than
   * the stock held at the start.
   */
  lemma NoOversell(c1: seq<Line>, c2: seq<Line>, inv: Inventory, inv1: Inventory, inv2: Inventory, p: string)
    requires StockNonNegative(inv) && p in inv
    requires StockAfter(c1, inv) == Ok(inv1) && StockAfter(c2, inv1) == Ok(inv2)
    ensures QtyFor(c1, p) + QtyFor(c2, p) <= inv[p]
  {
    StockAfterOk(c1, inv, inv1);
    StockAfterOk(c2, inv1, inv2);
    StockStaysNonNegative(c1, inv, inv1);
    StockStaysNonNegative(c2, inv1, inv2);
  }

  /** One step of the stock walk, at line i. */
  lemma StockAfterAt(cart: seq<Line>, i: nat, inv: Inventory)
    requires i < |cart|
    ensures cart[i].id !in inv ==> StockAfter(cart[i..], inv) == Err(NoInventoryRecord)
    ensures cart[i].id in inv && inv[cart[i].id] < cart[i].qty ==>
              StockAfter(cart[i..], inv) == Err(NotEnoughStock(cart[i].id))
    ensures cart[i].id in inv && inv[cart[i].id] >= cart[i].qty ==>
              StockAfter(cart[i..], inv) == StockAfter(cart[i + 1..], Take(inv, cart[i]))
  {
    assert cart[i..][1..] == cart[i + 1..];
  }

  /** The payment rows of the first i + 1 lines extend those of the first i. */
  lemma PaymentsForAt(cart: seq<Line>, draws: seq<Draw>, checkoutId: string, member: Member, i: nat)
    requires |draws| == |cart| && i < |cart|
    ensures PaymentsFor(cart[..i + 1], draws[..i + 1], checkoutId, member) ==
            PaymentsFor(cart[..i], draws[..i], checkoutId, member) + [Record(cart[i], draws[i], checkoutId, member)]
  {
    PaymentsForSnoc(cart[..i + 1], draws[..i + 1], checkoutId, member);
    assert cart[..i + 1][..i] == cart[..i] && draws[..i + 1][..i] == draws[..i];
  }

  /**
   * The body of the transaction: walk the cart in order against a staged copy of the stock
   * table, lowering each line's row and staging its payment row, and stop at the first line
   * that has no row or too little stock. Nothing outside the staged copies is touched, so
   * the caller commits the result or discards it.
   */
  method Stage(cart: seq<Line>, inv: Inventory, checkoutId: string, draws: seq<Draw>, member: Member)
    returns (r: Result<Settlement, CheckoutError>)
    requires |draws| == |cart|
    ensures r == Settle(cart, inv, checkoutId, draws, member)
  {
    var stock := inv;
    var staged: seq<Payment> := [];
    var i := 0;
    while i < |cart|
      invariant 0 <= i <= |cart|
      invariant StockAfter(cart, inv) == StockAfter(cart[i..], stock)
      invariant staged == PaymentsFor(cart[..i], draws[..i], checkoutId, member)
    {
      var line := cart[i];
      StockAfterAt(cart, i, stock);
      if line.id !in stock {
        return Err(NoInventoryRecord);
      }
      if stock[line.id] < line.qty {
        return Err(NotEnoughStock(line.id));
      }
      PaymentsForAt(cart, draws, checkoutId, member, i);
      stock := Take(stock, line);
      staged := staged + [Record(line, draws[i], checkoutId, member)];
      i := i + 1;
    }
    assert cart[i..] == [];
    assert cart[..i] == cart && draws[..i] == draws;
    r := Ok(Settlement(stock, staged));
  }
}
