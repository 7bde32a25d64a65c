/**
 * The cart page: the total, the quantity buttons and what is shown for an
 * empty and a non-empty cart. The cart itself belongs to the cart context,
 * whose operations are not part of this model: the page's buttons are
 * modelled as the requests they send to it.
 */
module Cart {
  import opened Wrappers
  import opened Seqs
  import opened Records

  /** `item.price * item.qty`. */
  function LineTotal(item: CartItem): nat {
    item.price * item.qty
  }

  /** `cart.reduce((sum, item) => sum + item.price * item.qty, 0)`. */
  function CartTotal(cart: seq<CartItem>): (total: nat)
    ensures forall i :: 0 <= i < |cart| ==> LineTotal(cart[i]) <= total
    ensures total == 0 <==> forall i :: 0 <= i < |cart| ==> cart[i].price == 0 || cart[i].qty == 0
  {
    if cart == [] then 0
    else
      assert forall i :: 0 < i < |cart| ==> cart[i] == cart[1..][i - 1];
      LineTotal(cart[0]) + CartTotal(cart[1..])
  }

  /** The total of two carts laid end to end is the sum of their totals. */
  lemma CartTotalAppend(a: seq<CartItem>, b: seq<CartItem>)
    ensures CartTotal(a + b) == CartTotal(a) + CartTotal(b)
  {
    SumAppend(a, b, LineTotal);
    SumIsCartTotal(a);
    SumIsCartTotal(b);
    SumIsCartTotal(a + b);
  }

  /** `CartTotal` is the generic sum of the line totals. */
  lemma {:induction false} SumIsCartTotal(cart: seq<CartItem>)
    ensures CartTotal(cart) == Sum(cart, LineTotal)
  {
    if cart != [] {
      SumIsCartTotal(cart[1..]);
    }
  }

  /** The requests the page sends to the cart context. */
  datatype CartRequest = UpdateQty(id: string, qty: int) | RemoveFromCart(id: string)

  datatype CartButton = Minus | Plus | Remove

  /** The request a button of an item's row sends. */
  function Press(item: CartItem, button: CartButton): (r: CartRequest)
    ensures r.id == item.id
    ensures button == Remove <==> r.RemoveFromCart?
    ensures button == Minus ==> r.qty == item.qty - 1
    ensures button == Plus ==> r.qty == item.qty + 1
  {
    match button
    case Minus => UpdateQty(item.id, item.qty - 1)
    case Plus => UpdateQty(item.id, item.qty + 1)
    case Remove => RemoveFromCart(item.id)
  }

  /** "+" on an item whose quantity "−" was requested for asks for the quantity it had. */
  lemma MinusThenPlus(item: CartItem)
    requires item.qty >= 1
    ensures Press(item.(qty := Press(item, Minus).qty as nat), Plus) == UpdateQty(item.id, item.qty)
  {
  }

  /** One rendered row of the cart. */
  datatype CartRow = CartRow(id: string, name: string, image: string, price: nat, qty: nat)

  /** What the page renders: the heading count, the empty message, the rows and the footer. */
  datatype CartView = CartView(
    count: nat,
    emptyMessage: bool,
    rows: seq<CartRow>,
    footer: Option<nat>)   // the total, shown with the Place Order button

  function RowOf(item: CartItem): CartRow {
    CartRow(item.id, item.name, item.image, item.price, item.qty)
  }

  function View(cart: seq<CartItem>): (v: CartView)
    ensures v.count == |cart| == |v.rows|
    ensures v.emptyMessage <==> cart == []
    ensures v.footer.Some? <==> cart != []
    ensures v.footer.Some? ==> v.footer.value == CartTotal(cart)
    ensures forall i :: 0 <= i < |cart| ==> v.rows[i].id == cart[i].id && v.rows[i].qty == cart[i].qty
  {
    CartView(|cart|, |cart| == 0, Map(cart, RowOf), if |cart| > 0 then Some(CartTotal(cart)) else None)
  }

  /** Exactly one of the empty message and the footer is shown. */
  lemma EmptyMessageOrFooter(cart: seq<CartItem>)
    ensures View(cart).emptyMessage != View(cart).footer.Some?
  {
  }
}
