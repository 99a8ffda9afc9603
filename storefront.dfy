/**
 * The storefront's request handlers over one session: the product and stock tables, the
 * payment table, and the session cart they update in place.
 */
module Storefront {
  import opened Wrappers
  import opened Ids
  import opened Cart
  import opened Checkout
  import Redirect

  /** A product row: name, unit price and image. */
  datatype Product = Product(name: string, price: int, imageUrl: string)

  /** The response of adding to the cart: 404, 400, or a redirect to the given URL. */
  datatype AddOutcome = ProductNotFound | NotEnoughStockToAdd | Added(redirect: string)

  /** The response of confirming: back to the cart page, the success page, or a 400 with the error's message. */
  datatype ConfirmOutcome = EmptyCart | Committed(checkoutId: string) | RolledBack(message: string)

  /** `Math.max(1, Number(qty || 1))`: an absent quantity means one, and anything below one becomes one. */
  function ClampQty(requested: Option<int>): (q: int)
    ensures q >= 1
    ensures requested.Some? && requested.value >= 1 ==> q == requested.value
    ensures requested.None? || requested.value < 1 ==> q == 1
  {
    match requested
    case Some(n) => if n < 1 then 1 else n
    case None => 1
  }

  /** `COALESCE(i.stock, 0)`: a product without an inventory row shows zero stock. */
  function ShownStock(inventory: Inventory, id: string): (s: int)
    ensures StockNonNegative(inventory) ==> s >= 0
  {
    if id in inventory then inventory[id] else 0
  }

  class Shop {
    /** The product table; no handler here changes it. */
    var products: map<string, Product>
    /** The inventory table. */
    var inventory: Inventory
    /** The payment table, only ever appended to. */
    var payments: seq<Payment>
    /** The session cart. */
    var cart: seq<Line>

    ghost predicate Valid()
      reads this
    {
      WellFormed(cart)
    }

    /** The cart badge on every page. */
    function CartCount(): int
      reads this
    {
      Count(cart)
    }

    /** The total on the cart page. */
    function CartTotal(): int
      reads this
    {
      Total(cart)
    }

    /** A session starts with an empty cart. */
    constructor (products: map<string, Product>, inventory: Inventory, payments: seq<Payment>)
      ensures Valid()
      ensures this.products == products && this.inventory == inventory && this.payments == payments
      ensures cart == []
    {
      this.products := products;
      this.inventory := inventory;
      this.payments := payments;
      cart := [];
    }

    /**
     * Add to cart. An unknown product and a shown stock below the requested quantity are
     * refused with the cart unchanged; the check is against the requested quantity only,
     * not against what the cart already holds.
     */
    method Add(id: string, requested: Option<int>, referer: Option<string>) returns (outcome: AddOutcome)
      requires Valid()
      modifies this`cart
      ensures Valid()
      ensures outcome == ProductNotFound <==> id !in products
      ensures outcome == NotEnoughStockToAdd <==>
                id in products && ShownStock(inventory, id) < ClampQty(requested)
      ensures outcome.Added? ==>
                outcome.redirect == Redirect.AfterAdd(referer) &&
                cart == AddToCart(old(cart), Line(id, products[id].name, products[id].price,
                                                  ClampQty(requested), products[id].imageUrl))
      ensures !outcome.Added? ==> cart == old(cart)
      ensures CartCount() == old(CartCount()) + if outcome.Added? then ClampQty(requested) else 0
    {
      var qty := ClampQty(requested);
      if id !in products {
        return ProductNotFound;
      }
      var p := products[id];
      if ShownStock(inventory, id) < qty {
        return NotEnoughStockToAdd;
      }
      var line := Line(id, p.name, p.price, qty, p.imageUrl);
      AddToCartWellFormed(cart, line);
      AddToCartCount(cart, line);
      match Find(cart, id) {
        case Some(i) =>
          cart := cart[i := cart[i].(qty := cart[i].qty + qty)];
        case None =>
          cart := cart + [line];
      }
      outcome := Added(Redirect.AfterAdd(referer));
    }

    /** Remove every line for the product. */
    method Remove(id: string)
      requires Valid()
      modifies this`cart
      ensures Valid()
      ensures cart == RemoveId(old(cart), id)
      ensures CartCount() == old(CartCount()) - match Find(old(cart), id) case Some(k) => old(cart)[k].qty case None => 0
    {
      RemoveIdWellFormed(cart, id);
      cart := RemoveId(cart, id);
    }

    /** Lower the product's line by one, dropping it at zero; an absent product changes nothing. */
    method Decrement(id: string)
      requires Valid()
      modifies this`cart
      ensures Valid()
      ensures cart == DecrementInCart(old(cart), id)
      ensures CartCount() == old(CartCount()) - if Find(old(cart), id).Some? then 1 else 0
    {
      DecrementWellFormed(cart, id);
      var found := Find(cart, id);
      if found.Some? {
        var i := found.value;
        cart := cart[i := cart[i].(qty := cart[i].qty - 1)];
        if cart[i].qty <= 0 {
          cart := RemoveId(cart, id);
        }
      }
    }

    /**
     * Confirm the order. An empty cart changes nothing. Otherwise the lines are walked in
     * order against a staged copy of the stock table and a staged list of payment rows;
     * the first failing line discards both (rollback), and a complete walk installs them
     * and clears the cart (commit). `checkoutDraw` and `paymentDraws` stand for the random
     * numbers drawn for the checkout id and for each line's payment id.
     */
    method Confirm(checkoutDraw: Draw, paymentDraws: seq<Draw>, user: Option<User>) returns (outcome: ConfirmOutcome)
      requires Valid()
      requires |paymentDraws| == |cart|
      modifies this`inventory, this`payments, this`cart
      ensures Valid()
      ensures old(cart) == [] ==>
                outcome == EmptyCart && inventory == old(inventory) && payments == old(payments) && cart == []
      ensures old(cart) != [] ==>
                match Settle(old(cart), old(inventory), CheckoutId(checkoutDraw), paymentDraws,
                             Member(MemberId(user), MemberName(user)))
                case Ok(s) =>
                  outcome == Committed(CheckoutId(checkoutDraw)) &&
                  inventory == s.inventory && payments == old(payments) + s.payments && cart == [] &&
                  SumAmounts(s.payments) == old(CartTotal())
                case Err(e) =>
                  outcome == RolledBack(ErrorMessage(e)) &&
                  inventory == old(inventory) && payments == old(payments) && cart == old(cart)
      ensures StockNonNegative(old(inventory)) ==> StockNonNegative(inventory)
    {
      if cart == [] {
        return EmptyCart;
      }
      var checkoutId := CheckoutId(checkoutDraw);
      var member := Member(MemberId(user), MemberName(user));
      var staged := Stage(cart, inventory, checkoutId, paymentDraws, member);
      match staged {
        case Err(e) =>
          outcome := RolledBack(ErrorMessage(e));
        case Ok(s) =>
          SettleCommitted(cart, inventory, checkoutId, paymentDraws, member, s);
          inventory := s.inventory;
          payments := payments + s.payments;
          cart := [];
          outcome := Committed(checkoutId);
      }
    }
  }
}
