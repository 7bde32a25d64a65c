/**
 * The admin "All Orders" page: the status button, the search and date
 * filters, the metric bar, the per-order total, the item rows with their
 * image and the expand/collapse list.
 */
module Orders {
  import opened Wrappers
  import opened Seqs
  import opened Text
  import opened Records
  import opened Backend

  const BASE_URL: string := "https://salon-server-gurw.onrender.com"
  const NO_IMAGE: string := "/no-image.png"

  // ---------------------------------------------------------------------
  // Status progression
  // ---------------------------------------------------------------------

  /** The status `updateStatus` writes for an order whose status is `current`. */
  function NextStatus(current: string): (r: string)
    ensures r == PROCESSING || r == DELIVERED
    ensures r == PROCESSING <==> current == PENDING
  {
    if current == PENDING then PROCESSING else DELIVERED
  }

  /** The status button is rendered only for an order that is not delivered. */
  predicate CanAdvance(status: string) {
    status != DELIVERED
  }

  /** Position in the sequence Pending, Processing, Delivered (other statuses: none). */
  function Rank(status: string): Option<nat> {
    if status == PENDING then Some(0)
    else if status == PROCESSING then Some(1)
    else if status == DELIVERED then Some(2)
    else None
  }

  /** From a known status the button moves the order exactly one step forward. */
  lemma AdvanceIsOneStep(status: string)
    requires Rank(status).Some? && CanAdvance(status)
    ensures Rank(NextStatus(status)).Some?
    ensures Rank(NextStatus(status)).value == Rank(status).value + 1
  {
  }

  /** The button never writes `Pending`, whatever the current status is. */
  lemma NextIsNeverPending(status: string)
    ensures NextStatus(status) != PENDING
    ensures Rank(NextStatus(status)).Some? && Rank(NextStatus(status)).value >= 1
  {
  }

  /**
   * The status after `n` presses of the status button, each press made
   * only while the button is shown (a delivered order has none).
   */
  function AfterPresses(status: string, n: nat): string
    decreases n
  {
    if n == 0 || !CanAdvance(status) then status
    else AfterPresses(NextStatus(status), n - 1)
  }

  /** Once any press has happened the order is never back at `Pending`. */
  lemma {:induction false} NeverBackToPending(status: string, n: nat)
    requires n >= 1
    ensures AfterPresses(status, n) != PENDING
    ensures AfterPresses(status, n) == PROCESSING || AfterPresses(status, n) == DELIVERED
    decreases n
  {
    if CanAdvance(status) && n > 1 {
      NeverBackToPending(NextStatus(status), n - 1);
    }
  }

  /** Two presses deliver any order, and further presses change nothing. */
  lemma {:induction false} DeliveredAfterTwo(status: string, n: nat)
    requires n >= 2
    ensures AfterPresses(status, n) == DELIVERED
  {
    if CanAdvance(status) {
      var next := NextStatus(status);
      if next == DELIVERED {
        DeliveredStaysDelivered(n - 1);
      } else {
        assert next == PROCESSING;
        assert AfterPresses(next, n - 1) == AfterPresses(DELIVERED, n - 2);
        DeliveredStaysDelivered(n - 2);
      }
    }
  }

  lemma {:induction false} DeliveredStaysDelivered(n: nat)
    ensures AfterPresses(DELIVERED, n) == DELIVERED
  {
  }

  /**
   * The button reads "Start Processing" exactly when pressing it starts
   * processing, and "Mark Delivered" exactly when pressing it delivers.
   */
  function ButtonLabel(status: string): (caption: string)
    ensures caption == "Start Processing" || caption == "Mark Delivered"
    ensures caption == "Start Processing" <==> NextStatus(status) == PROCESSING
    ensures caption == "Mark Delivered" <==> NextStatus(status) == DELIVERED
  {
    if status == PENDING then "Start Processing" else "Mark Delivered"
  }

  // ---------------------------------------------------------------------
  // Filters
  // ---------------------------------------------------------------------

  /** The search box: customer name (case-insensitive) or order id (as typed). */
  predicate MatchesSearch(o: Order, search: string) {
    || (o.customerName.Some? && Contains(Lower(o.customerName.value), Lower(search)))
    || (o.id.Some? && Contains(o.id.value, search))
  }

  /** The optional inclusive date bounds; an order without a date fails any set bound. */
  predicate MatchesDate(o: Order, from: Option<int>, to: Option<int>) {
    && (from.None? || (o.date.Some? && o.date.value >= from.value))
    && (to.None? || (o.date.Some? && o.date.value <= to.value))
  }

  function OrderFilter(search: string, from: Option<int>, to: Option<int>): Order -> bool {
    o => MatchesSearch(o, search) && MatchesDate(o, from, to)
  }

  /** `filteredOrders`. */
  function FilteredOrders(orders: seq<Order>, search: string, from: Option<int>, to: Option<int>): (r: seq<Order>)
    ensures SubseqOf(r, orders)
    ensures forall o :: o in r ==> o in orders && MatchesSearch(o, search) && MatchesDate(o, from, to)
    ensures forall i ::
      (0 <= i < |orders| && MatchesSearch(orders[i], search) && MatchesDate(orders[i], from, to)) ==> orders[i] in r
  {
    Filter(orders, OrderFilter(search, from, to))
  }

  /** With a bound set, a passing order has a date on the right side of it. */
  lemma DateBoundsMeaning(o: Order, from: Option<int>, to: Option<int>)
    requires MatchesDate(o, from, to)
    ensures from.Some? ==> o.date.Some? && o.date.value >= from.value
    ensures to.Some? ==> o.date.Some? && o.date.value <= to.value
    ensures (from.Some? || to.Some?) ==> o.date.Some?
  {
  }

  /** An empty search keeps exactly the orders that have a customer name or an id. */
  lemma EmptySearch(o: Order)
    ensures MatchesSearch(o, "") <==> o.customerName.Some? || o.id.Some?
  {
    if o.customerName.Some? {
      ContainsEmpty(Lower(o.customerName.value));
    }
    if o.id.Some? {
      ContainsEmpty(o.id.value);
    }
  }

  /** With no search text and no bounds, every order that has an id is listed, in order. */
  lemma NoFilterKeepsAll(orders: seq<Order>)
    requires forall i :: 0 <= i < |orders| ==> orders[i].id.Some?
    ensures FilteredOrders(orders, "", None, None) == orders
  {
    forall i | 0 <= i < |orders|
      ensures OrderFilter("", None, None)(orders[i])
    {
      EmptySearch(orders[i]);
    }
    FilterKeepsAll(orders, OrderFilter("", None, None));
  }

  // ---------------------------------------------------------------------
  // Metrics
  // ---------------------------------------------------------------------

  predicate IsPendingOrder(o: Order) { o.status == PENDING }
  predicate IsDeliveredOrder(o: Order) { o.status == DELIVERED }

  datatype OrderMetrics = OrderMetrics(total: nat, pending: nat, delivered: nat)

  /** The metric bar over the filtered orders. */
  function Metrics(filtered: seq<Order>): (m: OrderMetrics)
    ensures m.total == |filtered|
    ensures m.pending + m.delivered <= m.total
    ensures m.pending == |Filter(filtered, IsPendingOrder)|
    ensures m.delivered == |Filter(filtered, IsDeliveredOrder)|
  {
    CountDisjoint(filtered, IsPendingOrder, IsDeliveredOrder);
    OrderMetrics(|filtered|, Count(filtered, IsPendingOrder), Count(filtered, IsDeliveredOrder))
  }

  // ---------------------------------------------------------------------
  // Totals
  // ---------------------------------------------------------------------

  /** `item.quantity || 1`: a missing or zero quantity counts as one. */
  function EffectiveQuantity(item: OrderItem): (q: nat)
    ensures q >= 1
    ensures item.quantity.Some? && item.quantity.value > 0 ==> q == item.quantity.value
  {
    match item.quantity
    case Some(n) => if n == 0 then 1 else n
    case None => 1
  }

  /** `Number(item.price || 0) * Number(item.quantity || 1)`. */
  function LineAmount(item: OrderItem): nat {
    item.price.GetOr(0) * EffectiveQuantity(item)
  }

  function ItemPrice(item: OrderItem): nat {
    item.price.GetOr(0)
  }

  /** `totalPrice`: the sum of the line amounts of `order.items || []`. */
  function TotalPrice(o: Order): nat {
    Sum(o.items.GetOr([]), LineAmount)
  }

  /** An order without items totals zero. */
  lemma NoItemsTotalZero(o: Order)
    requires o.items.None? || o.items == Some([])
    ensures TotalPrice(o) == 0
  {
  }

  /** A line with quantity zero costs the same as one without a quantity: the unit price. */
  lemma ZeroQuantityCountsOnce(item: OrderItem)
    ensures LineAmount(item.(quantity := Some(0))) == LineAmount(item.(quantity := None))
    ensures LineAmount(item.(quantity := None)) == ItemPrice(item)
  {
  }

  /** Since every quantity counts at least once, the total is at least the sum of the unit prices. */
  lemma {:induction false} TotalCoversPrices(items: seq<OrderItem>)
    ensures Sum(items, ItemPrice) <= Sum(items, LineAmount)
  {
    if items != [] {
      TotalCoversPrices(items[1..]);
      assert ItemPrice(items[0]) <= LineAmount(items[0]);
    }
  }

  /** The totals of two item lists add up. */
  lemma TotalOfJoinedItems(o: Order, more: seq<OrderItem>)
    requires o.items.Some?
    ensures TotalPrice(o.(items := Some(o.items.value + more)))
         == TotalPrice(o) + Sum(more, LineAmount)
  {
    SumAppend(o.items.value, more, LineAmount);
  }

  // ---------------------------------------------------------------------
  // Item rows and their images
  // ---------------------------------------------------------------------

  /**
   * `item.image?.startsWith("http") ? item.image : `${BASE_URL}${item.image}``.
   * A missing image makes the template literal print "undefined".
   */
  function ItemImageUrl(image: Option<string>): string {
    match image
    case None => BASE_URL + "undefined"
    case Some(s) => if StartsWith(s, "http") then s else BASE_URL + s
  }

  /** `imageUrl || "/no-image.png"`, as written. */
  function ItemImageSrc(image: Option<string>): string {
    var url := ItemImageUrl(image);
    if url == "" then NO_IMAGE else url
  }

  /** As written, the placeholder is unreachable: every image becomes a URL starting with "http". */
  lemma PlaceholderUnreachable(image: Option<string>)
    ensures ItemImageSrc(image) == ItemImageUrl(image)
    ensures StartsWith(ItemImageSrc(image), "http")
    ensures ItemImageSrc(image) != NO_IMAGE
  {
    var url := ItemImageUrl(image);
    if image.None? || !StartsWith(image.value, "http") {
      var rest := if image.None? then "undefined" else image.value;
      assert url == BASE_URL + rest;
      StartsWithConcat(BASE_URL, rest);
      assert BASE_URL[0] == 'h' && BASE_URL[1] == 't' && BASE_URL[2] == 't' && BASE_URL[3] == 'p';
      assert BASE_URL[..4] == "http";
      StartsWithPrefix(url, BASE_URL, "http");
    }
    assert url[0] == 'h';
  }

  /** An item stored without an image renders the address BASE_URL + "undefined". */
  lemma MissingImageRendersUndefined()
    ensures ItemImageSrc(None) == BASE_URL + "undefined"
  {
  }

  /** The intended rule: no image (missing or empty) shows the placeholder. */
  function ItemImageSrcIntended(image: Option<string>): (r: string)
    ensures image.None? || image == Some("") ==> r == NO_IMAGE
    ensures image.Some? && image.value != "" ==> r == ItemImageSrc(image)
    ensures r == NO_IMAGE || StartsWith(r, "http")
  {
    match image
    case None => NO_IMAGE
    case Some(s) =>
      if s == "" then NO_IMAGE
      else
        PlaceholderUnreachable(image);
        ItemImageSrc(image)
  }

  /** One row of the expanded item list. */
  datatype ItemRow = ItemRow(imageSrc: string, name: string, qty: nat, amount: nat)

  function RowOf(item: OrderItem): ItemRow {
    ItemRow(ItemImageSrcIntended(item.image), item.name, EffectiveQuantity(item), LineAmount(item))
  }

  function RowAmount(row: ItemRow): nat { row.amount }

  /** The rows of an order, one per item, with the image rule corrected. */
  function Rows(o: Order): (rows: seq<ItemRow>)
    ensures |rows| == |o.items.GetOr([])|
    ensures Sum(rows, RowAmount) == TotalPrice(o)
  {
    SumMap(o.items.GetOr([]), RowOf, RowAmount, LineAmount);
    Map(o.items.GetOr([]), RowOf)
  }

  // ---------------------------------------------------------------------
  // Expand / collapse
  // ---------------------------------------------------------------------

  function OtherThan(id: string): string -> bool {
    x => x != id
  }

  /** The expand button: remove every occurrence of a shown id, or append a hidden one. */
  function Toggle(expanded: seq<string>, id: string): (r: seq<string>)
    ensures id in expanded ==> id !in r
    ensures id !in expanded ==> r == expanded + [id]
    ensures forall x :: x != id ==> multiset(r)[x] == multiset(expanded)[x]
  {
    if id in expanded then Filter(expanded, OtherThan(id)) else expanded + [id]
  }

  /** Toggling twice restores whether the id is shown; from hidden it restores the list itself. */
  lemma {:induction false} ToggleTwice(expanded: seq<string>, id: string)
    ensures id in Toggle(Toggle(expanded, id), id) <==> id in expanded
    ensures id !in expanded ==> Toggle(Toggle(expanded, id), id) == expanded
  {
    if id !in expanded {
      var once := expanded + [id];
      assert id in once;
      FilterAppend(expanded, [id], OtherThan(id));
      FilterKeepsAll(expanded, OtherThan(id));
      assert Filter([id], OtherThan(id)) == [];
      assert Toggle(once, id) == expanded;
    }
  }

  // ---------------------------------------------------------------------
  // The page state
  // ---------------------------------------------------------------------

  class OrdersPage {
    var orders: seq<Order>
    var loading: bool
    var search: string
    var dateFrom: Option<int>
    var dateTo: Option<int>
    var expanded: seq<string>

    constructor ()
      ensures orders == [] && loading && search == ""
      ensures dateFrom == None && dateTo == None && expanded == []
    {
      orders := [];
      loading := true;
      search := "";
      dateFrom := None;
      dateTo := None;
      expanded := [];
    }

    /** `fetchOrders`: on success the list is the server's; on failure it is kept. */
    method FetchOrders(store: Store, ok: bool)
      modifies this`orders, this`loading
      ensures orders == if ok then store.orders else old(orders)
      ensures !loading
    {
      if ok {
        orders := store.orders;
      }
      loading := false;
    }

    /** `updateStatus`: write the next status; refetch only after the write succeeded. */
    method UpdateStatus(store: Store, orderId: string, currentStatus: string, writeOk: bool, fetchOk: bool)
      modifies store`orders, this`orders, this`loading
      ensures store.orders == if writeOk then SetOrderStatus(old(store.orders), orderId, NextStatus(currentStatus))
                              else old(store.orders)
      ensures orders == if writeOk && fetchOk then store.orders else old(orders)
      ensures loading == if writeOk then false else old(loading)
    {
      var next := NextStatus(currentStatus);
      if writeOk {
        store.PutOrderStatus(orderId, next);
        FetchOrders(store, fetchOk);
      }
    }

    method SetSearch(text: string)
      modifies this`search
      ensures search == text
    {
      search := text;
    }

    method SetDateFrom(from: Option<int>)
      modifies this`dateFrom
      ensures dateFrom == from
    {
      dateFrom := from;
    }

    method SetDateTo(to: Option<int>)
      modifies this`dateTo
      ensures dateTo == to
    {
      dateTo := to;
    }

    method ToggleExpanded(id: string)
      modifies this`expanded
      ensures expanded == Toggle(old(expanded), id)
    {
      expanded := Toggle(expanded, id);
    }

    /** The orders the page lists. */
    function Visible(): seq<Order>
      reads this
    {
      FilteredOrders(orders, search, dateFrom, dateTo)
    }

    function Bar(): (m: OrderMetrics)
      reads this
      ensures m.total == |Visible()|
      ensures m.pending + m.delivered <= m.total
    {
      Metrics(Visible())
    }
  }
}
