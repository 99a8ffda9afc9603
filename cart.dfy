/**
 * The session cart as a value: an ordered list of lines, the lookups and rebuilds the
 * request handlers apply to it, and the two reductions shown on every page (the item
 * count) and on the cart page (the total). Prices and quantities are integers in minor
 * currency units.
 */
module Cart {
  import opened Wrappers

  /** One cart line: product id, display name, unit price, quantity and image. */
  datatype Line = Line(id: string, name: string, price: int, qty: int, imageUrl: string)

  /** No two lines share a product id. */
  predicate UniqueIds(cart: seq<Line>) {
    forall i, j :: 0 <= i < j < |cart| ==> cart[i].id != cart[j].id
  }

  /** The invariant the handlers keep: unique ids and every quantity at least one. */
  predicate WellFormed(cart: seq<Line>) {
    UniqueIds(cart) && forall i :: 0 <= i < |cart| ==> cart[i].qty >= 1
  }

  /** The index of the first line for `id`, the line Array.prototype.find returns. */
  function Find(cart: seq<Line>, id: string): (r: Option<nat>)
    ensures r.Some? ==> r.value < |cart| && cart[r.value].id == id
    ensures r.Some? ==> forall j :: 0 <= j < r.value ==> cart[j].id != id
    ensures r.None? <==> forall j :: 0 <= j < |cart| ==> cart[j].id != id
  {
    if cart == [] then None
    else if cart[0].id == id then Some(0)
    else match Find(cart[1..], id)
      case None => None
      case Some(i) => Some(i + 1)
  }

  /** The item count: the sum of the quantities. */
  function Count(cart: seq<Line>): int {
    if cart == [] then 0 else cart[0].qty + Count(cart[1..])
  }

  /** The cart total: the sum of price times quantity. */
  function Total(cart: seq<Line>): int {
    if cart == [] then 0 else cart[0].price * cart[0].qty + Total(cart[1..])
  }

  /** Adding `line`: merge its quantity into the line already there, or append it. */
  function AddToCart(cart: seq<Line>, line: Line): seq<Line> {
    match Find(cart, line.id)
    case Some(i) => cart[i := cart[i].(qty := cart[i].qty + line.qty)]
    case None => cart + [line]
  }

  /** The filter that drops every line for `id`. */
  function RemoveId(cart: seq<Line>, id: string): seq<Line> {
    if cart == [] then []
    else if cart[0].id == id then RemoveId(cart[1..], id)
    else [cart[0]] + RemoveId(cart[1..], id)
  }

  /** Lower the first line for `id` by one, dropping every line for `id` once it reaches zero. */
  function DecrementInCart(cart: seq<Line>, id: string): seq<Line> {
    match Find(cart, id)
    case None => cart
    case Some(i) =>
      var lowered := cart[i := cart[i].(qty := cart[i].qty - 1)];
      if lowered[i].qty <= 0 then RemoveId(lowered, id) else lowered
  }

  lemma {:induction false} CountAppend(a: seq<Line>, b: seq<Line>)
    ensures Count(a + b) == Count(a) + Count(b)
  {
    if a == [] {
      assert a + b == b;
    } else {
      assert (a + b)[1..] == a[1..] + b;
      CountAppend(a[1..], b);
    }
  }

  lemma {:induction false} TotalAppend(a: seq<Line>, b: seq<Line>)
    ensures Total(a + b) == Total(a) + Total(b)
  {
    if a == [] {
      assert a + b == b;
    } else {
      assert (a + b)[1..] == a[1..] + b;
      TotalAppend(a[1..], b);
    }
  }

  /** The count splits around any line. */
  lemma CountAround(cart: seq<Line>, k: nat)
    requires k < |cart|
    ensures Count(cart) == Count(cart[..k]) + cart[k].qty + Count(cart[k + 1..])
  {
    assert cart == cart[..k] + ([cart[k]] + cart[k + 1..]);
    CountAppend(cart[..k], [cart[k]] + cart[k + 1..]);
    assert ([cart[k]] + cart[k + 1..])[1..] == cart[k + 1..];
  }

  /** A well-formed cart counts at least its length, so its count is zero exactly when it is empty. */
  lemma {:induction false} CountBounds(cart: seq<Line>)
    requires WellFormed(cart)
    ensures Count(cart) >= |cart|
    ensures Count(cart) == 0 <==> cart == []
  {
    if cart != [] {
      assert WellFormed(cart[1..]);
      CountBounds(cart[1..]);
    }
  }

  /**
   * Adding a product already present raises that line's quantity by the added amount and
   * leaves every other line, the length and the order as they were; adding a new product
   * appends exactly one line at the end.
   */
  lemma AddToCartEffect(cart: seq<Line>, line: Line)
    requires UniqueIds(cart)
    ensures var r := AddToCart(cart, line);
            (forall k :: 0 <= k < |cart| && cart[k].id == line.id ==>
               |r| == |cart| && r[k] == cart[k].(qty := cart[k].qty + line.qty) &&
               forall j :: 0 <= j < |cart| && j != k ==> r[j] == cart[j]) &&
            ((forall k :: 0 <= k < |cart| ==> cart[k].id != line.id) ==> r == cart + [line])
  {
  }

  /** Adding keeps ids unique and quantities positive. */
  lemma AddToCartWellFormed(cart: seq<Line>, line: Line)
    requires WellFormed(cart) && line.qty >= 1
    ensures WellFormed(AddToCart(cart, line))
  {
  }

  /** Adding raises the item count by exactly the added quantity. */
  lemma AddToCartCount(cart: seq<Line>, line: Line)
    ensures Count(AddToCart(cart, line)) == Count(cart) + line.qty
  {
    match Find(cart, line.id)
    case Some(i) =>
      var r := AddToCart(cart, line);
      CountAround(cart, i);
      CountAround(r, i);
      assert r[..i] == cart[..i] && r[i + 1..] == cart[i + 1..];
    case None =>
      CountAppend(cart, [line]);
      assert [line][1..] == [];
  }

  /** Removing keeps exactly the lines with other ids. */
  lemma {:induction false} RemoveIdMembers(cart: seq<Line>, id: string)
    ensures forall l :: l in RemoveId(cart, id) <==> l in cart && l.id != id
  {
    if cart != [] {
      RemoveIdMembers(cart[1..], id);
      assert cart == [cart[0]] + cart[1..];
    }
  }

  /** Removing an id that no line has changes nothing. */
  lemma {:induction false} RemoveIdAbsent(cart: seq<Line>, id: string)
    requires forall j :: 0 <= j < |cart| ==> cart[j].id != id
    ensures RemoveId(cart, id) == cart
  {
    if cart != [] {
      RemoveIdAbsent(cart[1..], id);
      assert cart == [cart[0]] + cart[1..];
    }
  }

  /** In a cart with unique ids, removing the id of line k deletes that line and keeps the rest in order. */
  lemma {:induction false} RemoveIdDeletes(cart: seq<Line>, id: string, k: nat)
    requires UniqueIds(cart) && k < |cart| && cart[k].id == id
    ensures RemoveId(cart, id) == cart[..k] + cart[k + 1..]
  {
    if k == 0 {
      RemoveIdAbsent(cart[1..], id);
    } else {
      assert UniqueIds(cart[1..]);
      RemoveIdDeletes(cart[1..], id, k - 1);
      assert cart[1..][..k - 1] == cart[1..k];
      assert cart[1..][k..] == cart[k + 1..];
      assert [cart[0]] + cart[1..k] == cart[..k];
    }
  }

  /** Deleting one line of a well-formed cart leaves it well formed. */
  lemma DeleteAtWellFormed(cart: seq<Line>, k: nat)
    requires WellFormed(cart) && k < |cart|
    ensures WellFormed(cart[..k] + cart[k + 1..])
  {
    var r := cart[..k] + cart[k + 1..];
    forall i | 0 <= i < |r|
      ensures r[i] == cart[if i < k then i else i + 1]
    {
    }
  }

  /** Removing keeps ids unique, quantities positive, and lowers the count by the removed line's quantity. */
  lemma RemoveIdWellFormed(cart: seq<Line>, id: string)
    requires WellFormed(cart)
    ensures WellFormed(RemoveId(cart, id))
    ensures Count(RemoveId(cart, id)) == Count(cart) - match Find(cart, id) case Some(k) => cart[k].qty case None => 0
  {
    match Find(cart, id)
    case None =>
      RemoveIdAbsent(cart, id);
    case Some(k) =>
      RemoveIdDeletes(cart, id, k);
      DeleteAtWellFormed(cart, k);
      CountAround(cart, k);
      CountAppend(cart[..k], cart[k + 1..]);
  }

  /** Removing never leaves a line for the removed id. */
  lemma RemoveIdGone(cart: seq<Line>, id: string)
    ensures forall j :: 0 <= j < |RemoveId(cart, id)| ==> RemoveId(cart, id)[j].id != id
  {
    RemoveIdMembers(cart, id);
    var r := RemoveId(cart, id);
    forall j | 0 <= j < |r| ensures r[j].id != id {
      assert r[j] in r;
    }
  }

  /** Decrementing an id that no line has changes nothing. */
  lemma DecrementAbsent(cart: seq<Line>, id: string)
    requires forall j :: 0 <= j < |cart| ==> cart[j].id != id
    ensures DecrementInCart(cart, id) == cart
  {
  }

  /**
   * Decrementing the id of line k lowers its quantity by exactly one and keeps everything
   * else; a line whose quantity was one (or less) is deleted instead, the others kept in order.
   */
  lemma DecrementEffect(cart: seq<Line>, id: string, k: nat)
    requires UniqueIds(cart) && k < |cart| && cart[k].id == id
    ensures var r := DecrementInCart(cart, id);
            (cart[k].qty > 1 ==>
               |r| == |cart| && r[k] == cart[k].(qty := cart[k].qty - 1) &&
               forall j :: 0 <= j < |cart| && j != k ==> r[j] == cart[j]) &&
            (cart[k].qty <= 1 ==> r == cart[..k] + cart[k + 1..])
  {
    var lowered := cart[k := cart[k].(qty := cart[k].qty - 1)];
    assert Find(cart, id) == Some(k);
    if cart[k].qty <= 1 {
      assert UniqueIds(lowered);
      RemoveIdDeletes(lowered, id, k);
      assert lowered[..k] == cart[..k] && lowered[k + 1..] == cart[k + 1..];
    }
  }

  /** Decrementing keeps the cart well formed and lowers the count by one exactly when the id is present. */
  lemma DecrementWellFormed(cart: seq<Line>, id: string)
    requires WellFormed(cart)
    ensures WellFormed(DecrementInCart(cart, id))
    ensures Count(DecrementInCart(cart, id)) == Count(cart) - if Find(cart, id).Some? then 1 else 0
  {
    match Find(cart, id)
    case None =>
    case Some(k) =>
      DecrementEffect(cart, id, k);
      if cart[k].qty > 1 {
        LoweredCount(cart, k);
      } else {
        RemoveIdDeletes(cart, id, k);
        RemoveIdWellFormed(cart, id);
      }
  }

  lemma LoweredCount(cart: seq<Line>, k: nat)
    requires k < |cart|
    ensures Count(cart[k := cart[k].(qty := cart[k].qty - 1)]) == Count(cart) - 1
  {
    var lowered := cart[k := cart[k].(qty := cart[k].qty - 1)];
    CountAround(cart, k);
    CountAround(lowered, k);
    assert lowered[..k] == cart[..k] && lowered[k + 1..] == cart[k + 1..];
  }
}
