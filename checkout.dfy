/**
 * The checkout page: the order data built from the signed-in user, the
 * three inputs and a snapshot of the cart; the Place Order rule; and the
 * response handling that alone records the placed order and asks the cart
 * context to clear the cart.
 */
module Checkout {
  import opened Wrappers
  import opened Seqs
  import opened Records
  import opened Cart

  /** One entry of `orderData.items`. */
  datatype SnapshotItem = SnapshotItem(productId: string, name: string, image: string, price: nat, qty: nat)

  /** `orderData.user`. */
  datatype UserBlock = UserBlock(uid: string, email: string, name: string, phone: string, address: string)

  datatype OrderData = OrderData(user: UserBlock, items: seq<SnapshotItem>, totalAmount: nat)

  /** `placedOrder`: the order data with the local time it was placed at. */
  datatype PlacedOrder = PlacedOrder(data: OrderData, date: string)

  function SnapshotOf(item: CartItem): SnapshotItem {
    SnapshotItem(item.id, item.name, item.image, item.price, item.qty)
  }

  /** `cart.map(item => ({ productId: item._id, name, image, price, qty }))`. */
  function Snapshot(cart: seq<CartItem>): (items: seq<SnapshotItem>)
    ensures |items| == |cart|
    ensures forall i :: 0 <= i < |cart| ==>
      items[i].productId == cart[i].id && items[i].name == cart[i].name && items[i].image == cart[i].image
      && items[i].price == cart[i].price && items[i].qty == cart[i].qty
  {
    Map(cart, SnapshotOf)
  }

  function SnapshotLine(s: SnapshotItem): nat {
    s.price * s.qty
  }

  /** The snapshot is worth what the cart is worth. */
  lemma SnapshotTotal(cart: seq<CartItem>)
    ensures Sum(Snapshot(cart), SnapshotLine) == CartTotal(cart)
  {
    SumMap(cart, SnapshotOf, SnapshotLine, LineTotal);
    SumIsCartTotal(cart);
  }

  /** `orderData`, with `totalAmount` the page's `total`. */
  function BuildOrderData(user: AuthUser, name: string, phone: string, address: string, cart: seq<CartItem>): (d: OrderData)
    ensures d.user.uid == user.uid && d.user.email == user.email
    ensures d.user.name == name && d.user.phone == phone && d.user.address == address
    ensures d.items == Snapshot(cart)
    ensures d.totalAmount == Sum(d.items, SnapshotLine)
  {
    SnapshotTotal(cart);
    OrderData(UserBlock(user.uid, user.email, name, phone, address), Snapshot(cart), CartTotal(cart))
  }

  /** Place Order is enabled, `!(!name || !phone || !address)`. */
  predicate CanPlaceOrder(name: string, phone: string, address: string) {
    name != "" && phone != "" && address != ""
  }

  /** The button does not look at the cart: an empty cart can be ordered, for nothing. */
  lemma EmptyCartOrder(user: AuthUser, name: string, phone: string, address: string)
    ensures BuildOrderData(user, name, phone, address, []).items == []
    ensures BuildOrderData(user, name, phone, address, []).totalAmount == 0
  {
  }

  class CheckoutPage {
    var user: Option<AuthUser>
    var name: string
    var phone: string
    var address: string
    var success: bool
    var placedOrder: Option<PlacedOrder>

    /** `success` is only ever set together with the order it reports. */
    ghost predicate Valid()
      reads this
    {
      success ==> placedOrder.Some?
    }

    constructor ()
      ensures Valid()
      ensures user == None && name == "" && phone == "" && address == ""
      ensures !success && placedOrder == None
    {
      user := None;
      name := "";
      phone := "";
      address := "";
      success := false;
      placedOrder := None;
    }

    /** The auth listener: no user sends the visitor to the login page; a user is kept. */
    method OnAuthStateChanged(current: Option<AuthUser>) returns (toLogin: bool)
      modifies this`user
      ensures toLogin <==> current.None?
      ensures user == if current.Some? then current else old(user)
    {
      toLogin := current.None?;
      if current.Some? {
        user := current;
      }
    }

    method SetName(v: string)
      modifies this`name
      ensures name == v
    {
      name := v;
    }

    method SetPhone(v: string)
      modifies this`phone
      ensures phone == v
    {
      phone := v;
    }

    method SetAddress(v: string)
      modifies this`address
      ensures address == v
    {
      address := v;
    }

    /** The Place Order button's state. */
    function PlaceOrderEnabled(): (enabled: bool)
      reads this
      ensures enabled <==> name != "" && phone != "" && address != ""
    {
      CanPlaceOrder(name, phone, address)
    }

    /**
     * `placeOrder`: build the order data and post it. `responseOk` is
     * `res.ok`, `now` the local time of the response. With no user the
     * data cannot be built, so nothing is posted. The button is disabled
     * while a field is empty, so a posted order always carries all three.
     */
    method PlaceOrder(cart: seq<CartItem>, responseOk: bool, now: string) returns (posted: Option<OrderData>, clearCart: bool)
      requires Valid()
      requires PlaceOrderEnabled()
      modifies this`success, this`placedOrder
      ensures Valid()
      ensures posted.Some? <==> user.Some?
      ensures posted.Some? ==> posted.value.user.name != "" && posted.value.user.phone != "" && posted.value.user.address != ""
      ensures posted.Some? ==> posted.value == BuildOrderData(user.value, name, phone, address, cart)
      ensures clearCart <==> posted.Some? && responseOk
      ensures clearCart ==> success && placedOrder == Some(PlacedOrder(posted.value, now))
      ensures !clearCart ==> success == old(success) && placedOrder == old(placedOrder)
    {
      if user.None? {
        return None, false;
      }
      var data := BuildOrderData(user.value, name, phone, address, cart);
      posted := Some(data);
      clearCart := false;
      if responseOk {
        placedOrder := Some(PlacedOrder(data, now));
        success := true;
        clearCart := true;
      }
    }

    /** The success screen, `success && placedOrder`: under `Valid()` it is `success` alone. */
    function ShowsSuccess(): (shown: bool)
      requires Valid()
      reads this
      ensures shown <==> success
      ensures shown ==> placedOrder.Some?
    {
      success && placedOrder.Some?
    }
  }
}
