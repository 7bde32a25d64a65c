/**
 * The navigation bar: the cart badge, the admin flag derived from the
 * signed-in user, and the admin's notifications (pending bookings followed
 * by new enquiries). The polling interval is not modelled: each poll is
 * one call of `FetchNotifications`.
 */
module Navbar {
  import opened Wrappers
  import opened Seqs
  import opened Records
  import opened Backend

  const ADMIN_UID: string := "YuGcmQdwEHd8zeLcsk1Oiq62v9b2"

  /** `cart.reduce((sum, item) => sum + item.qty, 0)`. */
  function CartCount(cart: seq<CartItem>): (n: nat)
    ensures forall i :: 0 <= i < |cart| ==> cart[i].qty <= n
    ensures n == 0 <==> forall i :: 0 <= i < |cart| ==> cart[i].qty == 0
  {
    if cart == [] then 0
    else
      assert forall i :: 0 < i < |cart| ==> cart[i] == cart[1..][i - 1];
      cart[0].qty + CartCount(cart[1..])
  }

  /** The count of two carts laid end to end is the sum of their counts. */
  lemma {:induction false} CartCountAppend(a: seq<CartItem>, b: seq<CartItem>)
    ensures CartCount(a + b) == CartCount(a) + CartCount(b)
  {
    if a == [] {
      assert a + b == b;
    } else {
      assert (a + b)[1..] == a[1..] + b;
      CartCountAppend(a[1..], b);
    }
  }

  /** An entry of `notifications`: a pending booking or a new enquiry. */
  datatype Notification = BookingAlert(booking: Booking) | EnquiryAlert(enquiry: Enquiry)

  /** `[...pendingBookings, ...newEnquiries]`. */
  function Notifications(bs: seq<Booking>, es: seq<Enquiry>): (ns: seq<Notification>)
    ensures |ns| == |PendingBookings(bs)| + |NewEnquiries(es)|
    ensures forall i :: 0 <= i < |PendingBookings(bs)| ==> ns[i] == BookingAlert(PendingBookings(bs)[i])
    ensures forall i :: 0 <= i < |NewEnquiries(es)| ==> ns[|PendingBookings(bs)| + i] == EnquiryAlert(NewEnquiries(es)[i])
  {
    Map(PendingBookings(bs), (b: Booking) => BookingAlert(b)) + Map(NewEnquiries(es), (e: Enquiry) => EnquiryAlert(e))
  }

  /** Every notification is a pending booking or a new enquiry of the fetched lists. */
  lemma NotificationsAreFromTheLists(bs: seq<Booking>, es: seq<Enquiry>)
    ensures forall i :: 0 <= i < |Notifications(bs, es)| ==> NotificationFrom(Notifications(bs, es)[i], bs, es)
  {
    var ns := Notifications(bs, es);
    var pending := PendingBookings(bs);
    var newOnes := NewEnquiries(es);
    forall i | 0 <= i < |ns|
      ensures NotificationFrom(ns[i], bs, es)
    {
      if i < |pending| {
        assert ns[i] == BookingAlert(pending[i]);
        assert pending[i] in pending;
      } else {
        var j := i - |pending|;
        assert ns[|pending| + j] == EnquiryAlert(newOnes[j]);
        assert newOnes[j] in newOnes;
      }
    }
  }

  predicate NotificationFrom(n: Notification, bs: seq<Booking>, es: seq<Enquiry>) {
    match n
    case BookingAlert(b) => b in bs && b.status == PENDING
    case EnquiryAlert(e) => e in es && e.status == NEW
  }

  /** `user.uid === ADMIN_UID` for a signed-in user. */
  predicate IsAdminUser(user: Option<AuthUser>) {
    user.Some? && user.value.uid == ADMIN_UID
  }

  class NavbarState {
    var loggedIn: bool
    var isAdmin: bool
    var menuOpen: bool
    var notifications: seq<Notification>

    /** Only a signed-in user can be the admin. */
    ghost predicate Valid()
      reads this
    {
      isAdmin ==> loggedIn
    }

    constructor ()
      ensures Valid()
      ensures !loggedIn && !isAdmin && !menuOpen && notifications == []
    {
      loggedIn := false;
      isAdmin := false;
      menuOpen := false;
      notifications := [];
    }

    /** The auth listener. */
    method OnAuthStateChanged(user: Option<AuthUser>)
      modifies this`loggedIn, this`isAdmin
      ensures Valid()
      ensures loggedIn <==> user.Some?
      ensures isAdmin <==> IsAdminUser(user)
    {
      if user.Some? {
        loggedIn := true;
        isAdmin := user.value.uid == ADMIN_UID;
      } else {
        loggedIn := false;
        isAdmin := false;
      }
    }

    /** `logout`: signing out reports no user to the listener, then the menu closes. */
    method Logout()
      modifies this`loggedIn, this`isAdmin, this`menuOpen
      ensures Valid()
      ensures !loggedIn && !isAdmin && !menuOpen
    {
      OnAuthStateChanged(None);
      menuOpen := false;
    }

    method ToggleMenu()
      modifies this`menuOpen
      ensures menuOpen == !old(menuOpen)
    {
      menuOpen := !menuOpen;
    }

    /** A link of the mobile menu closes it. */
    method CloseMenu()
      modifies this`menuOpen
      ensures !menuOpen
    {
      menuOpen := false;
    }

    /**
     * `fetchNotifications`: nothing for a non-admin; otherwise the two
     * lists are read one after the other and the notifications are
     * replaced only when both reads succeed.
     */
    method FetchNotifications(store: Store, bookingsOk: bool, enquiriesOk: bool)
      requires Valid()
      modifies this`notifications
      ensures Valid()
      ensures notifications == if isAdmin && bookingsOk && enquiriesOk
        then Notifications(store.bookings, store.enquiries) else old(notifications)
      ensures isAdmin && bookingsOk && enquiriesOk ==>
        (AdminBadge().Some? <==> HasPendingOrNew(store.bookings, store.enquiries))
    {
      BadgeIffPendingOrNew(store.bookings, store.enquiries);
      if !isAdmin {
        return;
      }
      if !bookingsOk {
        return;
      }
      if !enquiriesOk {
        return;
      }
      notifications := Notifications(store.bookings, store.enquiries);
    }

    /** The badge on the Admin link: shown, with the count, iff there are notifications. */
    function AdminBadge(): (badge: Option<nat>)
      requires Valid()
      reads this
      ensures badge.Some? ==> loggedIn
      ensures badge.Some? <==> isAdmin && |notifications| > 0
      ensures badge.Some? ==> badge.value == |notifications|
    {
      if isAdmin && |notifications| > 0 then Some(|notifications|) else None
    }

    /** The cart badge: shown, with the count, iff the cart holds a positive quantity. */
    function CartBadge(cart: seq<CartItem>): (badge: Option<nat>)
      ensures badge.Some? <==> exists i :: 0 <= i < |cart| && cart[i].qty > 0
      ensures badge.Some? ==> badge.value == CartCount(cart)
    {
      if CartCount(cart) > 0 then Some(CartCount(cart)) else None
    }
  }

  /** A poll after fresh data shows the admin as many notifications as there are pending bookings and new enquiries. */
  /** Some fetched booking is still pending, or some fetched enquiry is still new. */
  predicate HasPendingOrNew(bs: seq<Booking>, es: seq<Enquiry>) {
    (exists i :: 0 <= i < |bs| && bs[i].status == PENDING) || (exists j :: 0 <= j < |es| && es[j].status == NEW)
  }

  /** The notification list is non-empty exactly when there is something to act on. */
  lemma BadgeIffPendingOrNew(bs: seq<Booking>, es: seq<Enquiry>)
    ensures |Notifications(bs, es)| > 0 <==> HasPendingOrNew(bs, es)
  {
    var pending := PendingBookings(bs);
    var newOnes := NewEnquiries(es);
    if |pending| > 0 {
      assert pending[0] in pending;
      var i :| 0 <= i < |bs| && bs[i] == pending[0];
      assert bs[i].status == PENDING;
    } else if |newOnes| > 0 {
      assert newOnes[0] in newOnes;
      var j :| 0 <= j < |es| && es[j] == newOnes[0];
      assert es[j].status == NEW;
    }
    if HasPendingOrNew(bs, es) {
      if exists i :: 0 <= i < |bs| && bs[i].status == PENDING {
        var i :| 0 <= i < |bs| && bs[i].status == PENDING;
        assert bs[i] in pending;
      } else {
        var j :| 0 <= j < |es| && es[j].status == NEW;
        assert es[j] in newOnes;
      }
    }
  }
}
