/**
 * The admin shell: the pending-booking and new-enquiry notification lists,
 * the order count, and "Clear" in the notification dropdown.
 */
module AdminLayout {
  import opened Seqs
  import opened Records
  import opened Backend

  function BookingId(b: Booking): string { b.id }
  function EnquiryId(e: Enquiry): string { e.id }

  /** Every booking whose id is among `ids` takes `status`; every other booking is kept. */
  function SetBookingStatusFor(bs: seq<Booking>, ids: seq<string>, status: string): (r: seq<Booking>)
    ensures |r| == |bs|
    ensures forall i :: 0 <= i < |bs| ==>
      r[i] == if bs[i].id in ids then bs[i].(status := status) else bs[i]
  {
    Map(bs, (b: Booking) => if b.id in ids then b.(status := status) else b)
  }

  /** Every enquiry whose id is among `ids` takes `status`; every other enquiry is kept. */
  function SetEnquiryStatusFor(es: seq<Enquiry>, ids: seq<string>, status: string): (r: seq<Enquiry>)
    ensures |r| == |es|
    ensures forall i :: 0 <= i < |es| ==>
      r[i] == if es[i].id in ids then es[i].(status := status) else es[i]
  {
    Map(es, (e: Enquiry) => if e.id in ids then e.(status := status) else e)
  }

  /** One more `PUT` extends the set of ids already written. */
  lemma PutOneMoreBooking(bs: seq<Booking>, ids: seq<string>, id: string, status: string)
    ensures SetBookingStatus(SetBookingStatusFor(bs, ids, status), id, status)
         == SetBookingStatusFor(bs, ids + [id], status)
  {
  }

  lemma PutOneMoreEnquiry(es: seq<Enquiry>, ids: seq<string>, id: string, status: string)
    ensures SetEnquiryStatus(SetEnquiryStatusFor(es, ids, status), id, status)
         == SetEnquiryStatusFor(es, ids + [id], status)
  {
  }

  /** After marking the listed ids `Seen`, no booking with a listed id is pending. */
  lemma SeenLeavesNoListedPending(bs: seq<Booking>, ids: seq<string>)
    ensures forall b :: b in PendingBookings(SetBookingStatusFor(bs, ids, SEEN)) ==> b.id !in ids
  {
    var r := SetBookingStatusFor(bs, ids, SEEN);
    forall b | b in PendingBookings(r)
      ensures b.id !in ids
    {
      var i :| 0 <= i < |r| && r[i] == b;
    }
  }

  /** After marking the listed ids `Contacted`, no enquiry with a listed id is new. */
  lemma ContactedLeavesNoListedNew(es: seq<Enquiry>, ids: seq<string>)
    ensures forall e :: e in NewEnquiries(SetEnquiryStatusFor(es, ids, CONTACTED)) ==> e.id !in ids
  {
    var r := SetEnquiryStatusFor(es, ids, CONTACTED);
    forall e | e in NewEnquiries(r)
      ensures e.id !in ids
    {
      var i :| 0 <= i < |r| && r[i] == e;
    }
  }

  class Layout {
    var bookings: seq<Booking>    // the pending bookings
    var enquiries: seq<Enquiry>   // the new enquiries
    var ordersCount: nat
    var showDropdown: bool

    constructor ()
      ensures bookings == [] && enquiries == [] && ordersCount == 0 && !showDropdown
    {
      bookings := [];
      enquiries := [];
      ordersCount := 0;
      showDropdown := false;
    }

    /** `fetchBookings`: keep the pending ones; on failure keep the old list. */
    method FetchBookings(store: Store, ok: bool)
      modifies this`bookings
      ensures bookings == if ok then PendingBookings(store.bookings) else old(bookings)
    {
      if ok {
        bookings := PendingBookings(store.bookings);
      }
    }

    /** `fetchEnquiries`: keep the new ones; on failure keep the old list. */
    method FetchEnquiries(store: Store, ok: bool)
      modifies this`enquiries
      ensures enquiries == if ok then NewEnquiries(store.enquiries) else old(enquiries)
    {
      if ok {
        enquiries := NewEnquiries(store.enquiries);
      }
    }

    /** `fetchOrders`: the number of orders; on failure keep the old count. */
    method FetchOrders(store: Store, ok: bool)
      modifies this`ordersCount
      ensures ordersCount == if ok then |store.orders| else old(ordersCount)
    {
      if ok {
        ordersCount := |store.orders|;
      }
    }

    method ToggleDropdown()
      modifies this`showDropdown
      ensures showDropdown == !old(showDropdown)
    {
      showDropdown := !showDropdown;
    }

    /** `totalNotifications`. */
    function TotalNotifications(): (n: nat)
      reads this
      ensures n == 0 <==> bookings == [] && enquiries == []
    {
      |bookings| + |enquiries|
    }

    /**
     * `clearNotifications`: write `Seen` to every listed booking and
     * `Contacted` to every listed enquiry, one after the other, then refetch
     * both lists and close the dropdown.
     */
    method ClearNotifications(store: Store, bookingsOk: bool, enquiriesOk: bool)
      modifies store`bookings, store`enquiries, this`bookings, this`enquiries, this`showDropdown
      ensures store.bookings == SetBookingStatusFor(old(store.bookings), Map(old(bookings), BookingId), SEEN)
      ensures store.enquiries == SetEnquiryStatusFor(old(store.enquiries), Map(old(enquiries), EnquiryId), CONTACTED)
      ensures bookings == if bookingsOk then PendingBookings(store.bookings) else old(bookings)
      ensures enquiries == if enquiriesOk then NewEnquiries(store.enquiries) else old(enquiries)
      ensures bookingsOk ==> forall b :: b in bookings ==> b.id !in Map(old(bookings), BookingId)
      ensures enquiriesOk ==> forall e :: e in enquiries ==> e.id !in Map(old(enquiries), EnquiryId)
      ensures !showDropdown
    {
      var listedBookings, listedEnquiries := bookings, enquiries;
      MarkBookingsSeen(store, listedBookings);
      MarkEnquiriesContacted(store, listedEnquiries);
      SeenLeavesNoListedPending(old(store.bookings), Map(listedBookings, BookingId));
      ContactedLeavesNoListedNew(old(store.enquiries), Map(listedEnquiries, EnquiryId));
      FetchBookings(store, bookingsOk);
      FetchEnquiries(store, enquiriesOk);
      showDropdown := false;
    }
  }

  /** The first half of `clearNotifications`: one `PUT { status: "Seen" }` per listed booking. */
  method MarkBookingsSeen(store: Store, listed: seq<Booking>)
    modifies store`bookings
    ensures store.bookings == SetBookingStatusFor(old(store.bookings), Map(listed, BookingId), SEEN)
  {
    var i := 0;
    while i < |listed|
      invariant 0 <= i <= |listed|
      invariant store.bookings == SetBookingStatusFor(old(store.bookings), Map(listed[..i], BookingId), SEEN)
    {
      var id := listed[i].id;
      PutOneMoreBooking(old(store.bookings), Map(listed[..i], BookingId), id, SEEN);
      store.PutBookingStatus(id, SEEN);
      assert Map(listed[..i + 1], BookingId) == Map(listed[..i], BookingId) + [id];
      i := i + 1;
    }
    assert listed[..i] == listed;
  }

  /** The second half: one `PUT { status: "Contacted" }` per listed enquiry. */
  method MarkEnquiriesContacted(store: Store, listed: seq<Enquiry>)
    modifies store`enquiries
    ensures store.enquiries == SetEnquiryStatusFor(old(store.enquiries), Map(listed, EnquiryId), CONTACTED)
  {
    var j := 0;
    while j < |listed|
      invariant 0 <= j <= |listed|
      invariant store.enquiries == SetEnquiryStatusFor(old(store.enquiries), Map(listed[..j], EnquiryId), CONTACTED)
    {
      var id := listed[j].id;
      PutOneMoreEnquiry(old(store.enquiries), Map(listed[..j], EnquiryId), id, CONTACTED);
      store.PutEnquiryStatus(id, CONTACTED);
      assert Map(listed[..j + 1], EnquiryId) == Map(listed[..j], EnquiryId) + [id];
      j := j + 1;
    }
    assert listed[..j] == listed;
  }
}
