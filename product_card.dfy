/**
 * A product card: whether the product is already in the cart, and the
 * buttons that follow from it and from the admin flag. Adding to the cart
 * belongs to the cart context and is modelled as the request the card sends.
 */
module ProductCard {
  import opened Wrappers
  import opened Records

  /** `cart.some(item => item._id === id)`. */
  function InCart(cart: seq<CartItem>, id: string): (b: bool)
    ensures b <==> exists i :: 0 <= i < |cart| && cart[i].id == id
  {
    if cart == [] then false
    else if cart[0].id == id then true
    else
      assert forall i :: 0 < i < |cart| ==> cart[i] == cart[1..][i - 1];
      InCart(cart[1..], id)
  }

  /** Items with other ids do not change whether a product is in the cart. */
  lemma {:induction false} OtherItemsDoNotMatter(cart: seq<CartItem>, more: seq<CartItem>, id: string)
    requires forall i :: 0 <= i < |more| ==> more[i].id != id
    ensures InCart(cart + more, id) == InCart(cart, id)
  {
    var both := cart + more;
    assert forall i :: |cart| <= i < |both| ==> both[i] == more[i - |cart|];
    assert forall i :: 0 <= i < |cart| ==> both[i] == cart[i];
    assert (exists i :: 0 <= i < |both| && both[i].id == id) <==> (exists i :: 0 <= i < |cart| && cart[i].id == id);
  }

  /** What the card's buttons send. */
  datatype CardAction = AddToCart(product: Product) | Edit(product: Product) | Delete(id: string)

  datatype AddButton = AddButton(disabled: bool, caption: string)

  /** A customer sees the add button; an admin sees Edit and Delete. */
  datatype CardButtons =
    | CustomerButtons(add: AddButton)
    | AdminButtons(edit: CardAction, delete: CardAction)

  function Buttons(product: Product, isAdmin: bool, cart: seq<CartItem>): (v: CardButtons)
    ensures v.CustomerButtons? <==> !isAdmin
    ensures v.CustomerButtons? ==>
      (v.add.disabled <==> InCart(cart, product.id)) && (v.add.caption == "Added" <==> InCart(cart, product.id))
    ensures v.AdminButtons? ==> v.edit == Edit(product) && v.delete == Delete(product.id)
  {
    if isAdmin then AdminButtons(Edit(product), Delete(product.id))
    else if InCart(cart, product.id) then CustomerButtons(AddButton(true, "Added"))
    else CustomerButtons(AddButton(false, "Add to Cart"))
  }

  /** Clicking the add button: a disabled button sends nothing. */
  function ClickAdd(product: Product, isAdmin: bool, cart: seq<CartItem>): (sent: Option<CardAction>)
    requires !isAdmin
    ensures sent.Some? <==> !InCart(cart, product.id)
    ensures sent.Some? ==> sent.value == AddToCart(product)
  {
    var v := Buttons(product, isAdmin, cart);
    if v.add.disabled then None else Some(AddToCart(product))
  }

  /** On an empty cart every customer card offers "Add to Cart". */
  lemma EmptyCartOffersAdd(product: Product)
    ensures Buttons(product, false, []) == CustomerButtons(AddButton(false, "Add to Cart"))
  {
  }
}
