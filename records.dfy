/**
 * The records the front end receives from and sends to the salon server,
 * with the fields the components read. A field the source reads through
 * `?.` or a `|| default` is an `Option`; dates are abstracted to integers
 * (a later date is a larger number), prices and quantities to naturals.
 * Statuses stay strings, as in the source: a fetched record may carry any
 * status the server holds.
 */
module Records {
  import opened Wrappers
  import opened Seqs

  // Booking statuses
  const PENDING: string := "Pending"
  const SEEN: string := "Seen"
  const COMPLETED: string := "Completed"
  // Order statuses (PENDING is shared)
  const PROCESSING: string := "Processing"
  const DELIVERED: string := "Delivered"
  // Enquiry statuses
  const NEW: string := "New"
  const CONTACTED: string := "Contacted"
  const CLOSED: string := "Closed"

  datatype Booking = Booking(
    id: string,
    customerName: string,
    phone: string,
    serviceTitle: string,
    servicePrice: Option<nat>,
    date: int,
    time: string,
    status: string)

  datatype OrderItem = OrderItem(
    name: string,
    image: Option<string>,
    price: Option<nat>,
    quantity: Option<nat>)

  datatype Order = Order(
    id: Option<string>,
    customerName: Option<string>,
    phone: string,
    date: Option<int>,
    status: string,
    items: Option<seq<OrderItem>>)

  datatype Enquiry = Enquiry(
    id: string,
    name: string,
    email: string,
    phone: string,
    kind: string,   // the enquiry's `type`
    message: string,
    status: string)

  /** An entry of the shopping cart held by the cart context. */
  datatype CartItem = CartItem(id: string, name: string, image: string, price: nat, qty: nat)

  datatype Product = Product(id: string, name: string, price: nat, image: string)

  datatype Service = Service(id: string, name: string, price: nat, image: Option<string>)

  /** The signed-in user as the authentication provider reports it. */
  datatype AuthUser = AuthUser(uid: string, email: string)

  predicate IsPendingBooking(b: Booking) { b.status == PENDING }
  predicate IsCompletedBooking(b: Booking) { b.status == COMPLETED }
  predicate IsNewEnquiry(e: Enquiry) { e.status == NEW }

  /** `bookings.filter(b => b.status === "Pending")`. */
  function PendingBookings(bs: seq<Booking>): (r: seq<Booking>)
    ensures SubseqOf(r, bs)
    ensures forall b :: b in r ==> b in bs && b.status == PENDING
    ensures forall i :: 0 <= i < |bs| && bs[i].status == PENDING ==> bs[i] in r
  {
    Filter(bs, IsPendingBooking)
  }

  /** `enquiries.filter(e => e.status === "New")`. */
  function NewEnquiries(es: seq<Enquiry>): (r: seq<Enquiry>)
    ensures SubseqOf(r, es)
    ensures forall e :: e in r ==> e in es && e.status == NEW
    ensures forall i :: 0 <= i < |es| && es[i].status == NEW ==> es[i] in r
  {
    Filter(es, IsNewEnquiry)
  }

  /**
   * `bookings.map(b => b._id === id ? { ...b, status } : b)`: the bookings
   * with the given id take the new status; nothing else changes.
   */
  function SetBookingStatus(bs: seq<Booking>, id: string, status: string): (r: seq<Booking>)
    ensures |r| == |bs|
    ensures forall i :: 0 <= i < |bs| ==>
      r[i] == if bs[i].id == id then bs[i].(status := status) else bs[i]
  {
    Map(bs, (b: Booking) => if b.id == id then b.(status := status) else b)
  }

  /** The orders whose `_id` is `id` take the new status; nothing else changes. */
  function SetOrderStatus(os: seq<Order>, id: string, status: string): (r: seq<Order>)
    ensures |r| == |os|
    ensures forall i :: 0 <= i < |os| ==>
      r[i] == if os[i].id == Some(id) then os[i].(status := status) else os[i]
  {
    Map(os, (o: Order) => if o.id == Some(id) then o.(status := status) else o)
  }

  /** The enquiries whose `_id` is `id` take the new status; nothing else changes. */
  function SetEnquiryStatus(es: seq<Enquiry>, id: string, status: string): (r: seq<Enquiry>)
    ensures |r| == |es|
    ensures forall i :: 0 <= i < |es| ==>
      r[i] == if es[i].id == id then es[i].(status := status) else es[i]
  {
    Map(es, (e: Enquiry) => if e.id == id then e.(status := status) else e)
  }
}
