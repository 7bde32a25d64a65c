/**
 * The admin "Bookings" page: the optimistic status update, the search /
 * status-tab / date filters, the metric cards and the "Mark Completed"
 * button.
 */
module Bookings {
  import opened Wrappers
  import opened Seqs
  import opened Text
  import opened Records
  import opened Backend

  const ALL_TAB: string := "All"

  // ---------------------------------------------------------------------
  // Optimistic status update
  // ---------------------------------------------------------------------

  /**
   * The optimistic rewrite: same length, the bookings with the id take the
   * new status, every other booking and every other field is kept.
   */
  lemma OptimisticUpdate(bs: seq<Booking>, id: string, newStatus: string)
    ensures |SetBookingStatus(bs, id, newStatus)| == |bs|
    ensures forall i :: 0 <= i < |bs| ==>
      && SetBookingStatus(bs, id, newStatus)[i].status == (if bs[i].id == id then newStatus else bs[i].status)
      && SetBookingStatus(bs, id, newStatus)[i].(status := bs[i].status) == bs[i]
  {
  }

  /** Applying the same optimistic update twice is applying it once. */
  lemma OptimisticUpdateIdempotent(bs: seq<Booking>, id: string, newStatus: string)
    ensures SetBookingStatus(SetBookingStatus(bs, id, newStatus), id, newStatus)
         == SetBookingStatus(bs, id, newStatus)
  {
  }

  /** Writing a status other than `Pending` never adds a pending booking. */
  lemma {:induction false} UpdateDoesNotAddPending(bs: seq<Booking>, id: string, newStatus: string)
    requires newStatus != PENDING
    ensures |PendingBookings(SetBookingStatus(bs, id, newStatus))| <= |PendingBookings(bs)|
  {
    if bs != [] {
      var r := SetBookingStatus(bs, id, newStatus);
      assert r[1..] == SetBookingStatus(bs[1..], id, newStatus);
      UpdateDoesNotAddPending(bs[1..], id, newStatus);
      assert r == [r[0]] + r[1..];
    }
  }

  // ---------------------------------------------------------------------
  // Filters
  // ---------------------------------------------------------------------

  /** Customer name or service title (case-insensitive), or phone (as typed). */
  predicate MatchesSearch(b: Booking, search: string) {
    || Contains(Lower(b.customerName), Lower(search))
    || Contains(b.phone, search)
    || Contains(Lower(b.serviceTitle), Lower(search))
  }

  /** The status tab: "All" admits everything, any other tab its own status. */
  predicate MatchesStatus(b: Booking, tab: string) {
    tab == ALL_TAB || b.status == tab
  }

  /** The optional inclusive date bounds; an unset bound always passes. */
  predicate WithinDates(b: Booking, from: Option<int>, to: Option<int>) {
    && (from.None? || b.date >= from.value)
    && (to.None? || b.date <= to.value)
  }

  predicate Admits(b: Booking, search: string, tab: string, from: Option<int>, to: Option<int>) {
    MatchesSearch(b, search) && MatchesStatus(b, tab) && WithinDates(b, from, to)
  }

  function BookingFilter(search: string, tab: string, from: Option<int>, to: Option<int>): Booking -> bool {
    b => Admits(b, search, tab, from, to)
  }

  /** `filteredBookings`. */
  function FilteredBookings(bs: seq<Booking>, search: string, tab: string, from: Option<int>, to: Option<int>)
    : (r: seq<Booking>)
    ensures SubseqOf(r, bs)
    ensures forall b :: b in r ==> b in bs && Admits(b, search, tab, from, to)
    ensures forall i :: (0 <= i < |bs| && Admits(bs[i], search, tab, from, to)) ==> bs[i] in r
  {
    Filter(bs, BookingFilter(search, tab, from, to))
  }

  /** The empty query admits every booking. */
  lemma EmptySearchAdmits(b: Booking)
    ensures MatchesSearch(b, "")
  {
    ContainsEmpty(Lower(b.customerName));
  }

  function HasStatus(tab: string): Booking -> bool {
    (b: Booking) => b.status == tab
  }

  /** With no query and no dates, the "All" tab lists every booking in order. */
  lemma AllTabListsEverything(bs: seq<Booking>)
    ensures FilteredBookings(bs, "", ALL_TAB, None, None) == bs
  {
    forall i | 0 <= i < |bs|
      ensures BookingFilter("", ALL_TAB, None, None)(bs[i])
    {
      EmptySearchAdmits(bs[i]);
    }
    FilterKeepsAll(bs, BookingFilter("", ALL_TAB, None, None));
  }

  /** With no query and no dates, any other tab lists exactly the bookings with that status. */
  lemma TabListsItsStatus(bs: seq<Booking>, tab: string)
    requires tab != ALL_TAB
    ensures FilteredBookings(bs, "", tab, None, None) == Filter(bs, HasStatus(tab))
  {
    forall i | 0 <= i < |bs|
      ensures BookingFilter("", tab, None, None)(bs[i]) == HasStatus(tab)(bs[i])
    {
      EmptySearchAdmits(bs[i]);
    }
    FilterSameTest(bs, BookingFilter("", tab, None, None), HasStatus(tab));
  }

  // ---------------------------------------------------------------------
  // Metrics
  // ---------------------------------------------------------------------

  datatype BookingMetrics = BookingMetrics(total: nat, pending: nat, completed: nat)

  /** `metrics`, computed on the unfiltered list. */
  function Metrics(bs: seq<Booking>): (m: BookingMetrics)
    ensures m.total == |bs|
    ensures m.pending == |PendingBookings(bs)|
    ensures m.completed == |Filter(bs, IsCompletedBooking)|
    ensures m.pending + m.completed <= m.total
  {
    CountDisjoint(bs, IsPendingBooking, IsCompletedBooking);
    BookingMetrics(|bs|, Count(bs, IsPendingBooking), Count(bs, IsCompletedBooking))
  }

  // ---------------------------------------------------------------------
  // Mark Completed
  // ---------------------------------------------------------------------

  /** The button is rendered for every booking that is not completed. */
  predicate MarkCompletedShown(b: Booking) {
    b.status != COMPLETED
  }

  /** After the optimistic update, no booking with that id still shows the button. */
  lemma MarkCompletedHidesButton(bs: seq<Booking>, id: string)
    ensures forall i :: 0 <= i < |bs| && bs[i].id == id ==> !MarkCompletedShown(SetBookingStatus(bs, id, COMPLETED)[i])
    ensures forall i :: 0 <= i < |bs| && bs[i].id != id ==> SetBookingStatus(bs, id, COMPLETED)[i] == bs[i]
  {
  }

  // ---------------------------------------------------------------------
  // The page state
  // ---------------------------------------------------------------------

  class BookingsPage {
    var bookings: seq<Booking>
    var loading: bool
    var search: string
    var statusTab: string
    var fromDate: Option<int>
    var toDate: Option<int>

    constructor ()
      ensures bookings == [] && loading && search == "" && statusTab == ALL_TAB
      ensures fromDate == None && toDate == None
    {
      bookings := [];
      loading := true;
      search := "";
      statusTab := ALL_TAB;
      fromDate := None;
      toDate := None;
    }

    /** `fetchBookings`: on failure the previous list is kept. */
    method FetchBookings(store: Store, ok: bool)
      modifies this`bookings, this`loading
      ensures bookings == if ok then store.bookings else old(bookings)
      ensures !loading
    {
      loading := true;
      if ok {
        bookings := store.bookings;
      }
      loading := false;
    }

    /**
     * `updateStatus`: rewrite the list at once, then write; when the write
     * fails, refetch the server's copy to undo the rewrite.
     */
    method UpdateStatus(store: Store, id: string, newStatus: string, writeOk: bool, refetchOk: bool)
      modifies store`bookings, this`bookings, this`loading
      ensures store.bookings == if writeOk then SetBookingStatus(old(store.bookings), id, newStatus)
                                else old(store.bookings)
      ensures bookings == if !writeOk && refetchOk then store.bookings
                          else SetBookingStatus(old(bookings), id, newStatus)
      ensures loading == if writeOk then old(loading) else false
    {
      bookings := SetBookingStatus(bookings, id, newStatus);
      if writeOk {
        store.PutBookingStatus(id, newStatus);
      } else {
        FetchBookings(store, refetchOk);
      }
    }

    /** The "Mark Completed" button of a listed booking that is not completed. */
    method MarkCompleted(store: Store, b: Booking, writeOk: bool, refetchOk: bool)
      requires MarkCompletedShown(b)
      modifies store`bookings, this`bookings, this`loading
      ensures store.bookings == if writeOk then SetBookingStatus(old(store.bookings), b.id, COMPLETED)
                                else old(store.bookings)
      ensures bookings == if !writeOk && refetchOk then store.bookings
                          else SetBookingStatus(old(bookings), b.id, COMPLETED)
    {
      UpdateStatus(store, b.id, COMPLETED, writeOk, refetchOk);
    }

    method SetSearch(text: string)
      modifies this`search
      ensures search == text
    {
      search := text;
    }

    method SetStatusTab(tab: string)
      modifies this`statusTab
      ensures statusTab == tab
    {
      statusTab := tab;
    }

    method SetFromDate(from: Option<int>)
      modifies this`fromDate
      ensures fromDate == from
    {
      fromDate := from;
    }

    method SetToDate(to: Option<int>)
      modifies this`toDate
      ensures toDate == to
    {
      toDate := to;
    }

    /** The bookings the page lists. */
    function Visible(): seq<Booking>
      reads this
    {
      FilteredBookings(bookings, search, statusTab, fromDate, toDate)
    }

    /** The metric cards, over all bookings whatever the filters say. */
    function Cards(): (m: BookingMetrics)
      reads this
      ensures m.total == |bookings|
      ensures m.pending + m.completed <= m.total
    {
      Metrics(bookings)
    }
  }
}
