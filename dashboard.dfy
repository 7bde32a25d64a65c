/**
 * The admin dashboard: total and pending bookings, the number of distinct
 * services booked, this month's revenue and the five most recent bookings.
 * The current month and the month of a date are parameters: `monthOf`
 * stands for `new Date(date).getMonth()`, which drops the year.
 */
module Dashboard {
  import opened Wrappers
  import opened Seqs
  import opened Records

  const RECENT_COUNT: nat := 5

  // ---------------------------------------------------------------------
  // Distinct services
  // ---------------------------------------------------------------------

  /** `new Set(bookings.map(b => b.serviceTitle))`. */
  function Titles(bs: seq<Booking>): (t: set<string>)
    ensures forall i :: 0 <= i < |bs| ==> bs[i].serviceTitle in t
  {
    if bs == [] then {} else {bs[0].serviceTitle} + Titles(bs[1..])
  }

  /** There are never more distinct titles than bookings. */
  lemma {:induction false} TitlesAtMostBookings(bs: seq<Booking>)
    ensures |Titles(bs)| <= |bs|
  {
    if bs != [] {
      TitlesAtMostBookings(bs[1..]);
      var t := bs[0].serviceTitle;
      assert |{t} + Titles(bs[1..])| <= |{t}| + |Titles(bs[1..])|;
    }
  }

  /** Every distinct title belongs to some booking. */
  lemma {:induction false} TitlesComeFromBookings(bs: seq<Booking>, t: string)
    requires t in Titles(bs)
    ensures exists i :: 0 <= i < |bs| && bs[i].serviceTitle == t
  {
    if bs[0].serviceTitle != t {
      TitlesComeFromBookings(bs[1..], t);
      var i :| 0 <= i < |bs[1..]| && bs[1..][i].serviceTitle == t;
      assert bs[i + 1].serviceTitle == t;
    }
  }

  /** `activeServices`. */
  function ActiveServices(bs: seq<Booking>): (n: nat)
    ensures n <= |bs|
    ensures n >= 1 <==> |bs| > 0
  {
    TitlesAtMostBookings(bs);
    if bs != [] then assert bs[0].serviceTitle in Titles(bs); |Titles(bs)| else |Titles(bs)|
  }

  // ---------------------------------------------------------------------
  // Revenue this month
  // ---------------------------------------------------------------------

  /** Counted in the revenue: completed, and its month is the current month (any year). */
  predicate EarnsThisMonth(b: Booking, monthOf: int -> nat, month: nat) {
    b.status == COMPLETED && monthOf(b.date) == month
  }

  function RevenueFilter(monthOf: int -> nat, month: nat): Booking -> bool {
    b => EarnsThisMonth(b, monthOf, month)
  }

  /** `b.servicePrice || 0`. */
  function ServicePrice(b: Booking): nat {
    b.servicePrice.GetOr(0)
  }

  /** `monthRevenue`. */
  function MonthRevenue(bs: seq<Booking>, monthOf: int -> nat, month: nat): nat {
    Sum(Filter(bs, RevenueFilter(monthOf, month)), ServicePrice)
  }

  /** The revenue of a list with one more booking. */
  lemma {:induction false} RevenueOfOneMore(bs: seq<Booking>, b: Booking, monthOf: int -> nat, month: nat)
    ensures MonthRevenue(bs + [b], monthOf, month)
         == MonthRevenue(bs, monthOf, month) + (if EarnsThisMonth(b, monthOf, month) then ServicePrice(b) else 0)
  {
    var p := RevenueFilter(monthOf, month);
    FilterAppend(bs, [b], p);
    SumAppend(Filter(bs, p), Filter([b], p), ServicePrice);
    assert [b][1..] == [];
  }

  /** A booking that is not completed leaves the revenue unchanged. */
  lemma NotCompletedAddsNothing(bs: seq<Booking>, b: Booking, monthOf: int -> nat, month: nat)
    requires b.status != COMPLETED
    ensures MonthRevenue(bs + [b], monthOf, month) == MonthRevenue(bs, monthOf, month)
  {
    RevenueOfOneMore(bs, b, monthOf, month);
  }

  /** Only the month of a date is compared: moving a booking to a date with the same month changes nothing. */
  lemma OnlyTheMonthMatters(bs: seq<Booking>, b: Booking, date: int, monthOf: int -> nat, month: nat)
    requires monthOf(date) == monthOf(b.date)
    ensures MonthRevenue(bs + [b.(date := date)], monthOf, month) == MonthRevenue(bs + [b], monthOf, month)
  {
    RevenueOfOneMore(bs, b, monthOf, month);
    RevenueOfOneMore(bs, b.(date := date), monthOf, month);
  }

  // ---------------------------------------------------------------------
  // Recent bookings
  // ---------------------------------------------------------------------

  ghost predicate NewestFirst(s: seq<Booking>) {
    forall i, j :: 0 <= i < j < |s| ==> s[i].date >= s[j].date
  }

  /**
   * Insert `b` before the first booking that is not newer than it, so
   * that bookings with equal dates keep their order (a stable sort).
   */
  function InsertByDate(b: Booking, s: seq<Booking>): (r: seq<Booking>)
    ensures |r| == |s| + 1
    ensures multiset(r) == multiset(s) + multiset{b}
  {
    if s == [] then [b]
    else if s[0].date <= b.date then [b] + s
    else
      assert s == [s[0]] + s[1..];
      [s[0]] + InsertByDate(b, s[1..])
  }

  /** No booking of `s` is dated after `t`. */
  ghost predicate DatesAtMost(s: seq<Booking>, t: int) {
    forall k :: 0 <= k < |s| ==> s[k].date <= t
  }

  /** Inserting a booking no later than `t` keeps every date at most `t`. */
  lemma {:induction false} InsertAtMost(b: Booking, s: seq<Booking>, t: int)
    requires DatesAtMost(s, t) && b.date <= t
    ensures DatesAtMost(InsertByDate(b, s), t)
  {
    if s != [] && s[0].date > b.date {
      InsertAtMost(b, s[1..], t);
      var rest := InsertByDate(b, s[1..]);
      assert InsertByDate(b, s) == [s[0]] + rest;
    }
  }

  lemma {:induction false} InsertKeepsNewestFirst(b: Booking, s: seq<Booking>)
    requires NewestFirst(s)
    ensures NewestFirst(InsertByDate(b, s))
  {
    if s != [] && s[0].date > b.date {
      InsertKeepsNewestFirst(b, s[1..]);
      InsertAtMost(b, s[1..], s[0].date);
      var rest := InsertByDate(b, s[1..]);
      assert InsertByDate(b, s) == [s[0]] + rest;
      ConsNewestFirst(s[0], rest);
    }
  }

  /** A booking no older than all of a newest-first list can go in front of it. */
  lemma ConsNewestFirst(x: Booking, s: seq<Booking>)
    requires NewestFirst(s) && DatesAtMost(s, x.date)
    ensures NewestFirst([x] + s)
  {
    var r := [x] + s;
    forall i, j | 0 <= i < j < |r|
      ensures r[i].date >= r[j].date
    {
      assert r[j] == s[j - 1];
      if i > 0 {
        assert r[i] == s[i - 1];
      }
    }
  }

  /** `[...bookings].sort((a, b) => b.date - a.date)`: a sorted copy; `bookings` is untouched. */
  function SortNewestFirst(s: seq<Booking>): (r: seq<Booking>)
    ensures |r| == |s|
    ensures multiset(r) == multiset(s)
  {
    if s == [] then []
    else
      assert s == [s[0]] + s[1..];
      InsertByDate(s[0], SortNewestFirst(s[1..]))
  }

  lemma {:induction false} SortIsNewestFirst(s: seq<Booking>)
    ensures NewestFirst(SortNewestFirst(s))
  {
    if s != [] {
      SortIsNewestFirst(s[1..]);
      InsertKeepsNewestFirst(s[0], SortNewestFirst(s[1..]));
    }
  }

  /** The bookings dated `d`. */
  function DatedOn(d: int): Booking -> bool {
    (b: Booking) => b.date == d
  }

  /**
   * Inserting `b` puts it ahead of every booking with its date and leaves
   * the bookings of any other date as they were.
   */
  lemma {:induction false} InsertKeepsTies(b: Booking, s: seq<Booking>, d: int)
    ensures Filter(InsertByDate(b, s), DatedOn(d)) == (if b.date == d then [b] else []) + Filter(s, DatedOn(d))
  {
    if s == [] {
      FilterCons(b, [], DatedOn(d));
    } else if s[0].date <= b.date {
      FilterCons(b, s, DatedOn(d));
    } else {
      var rest := InsertByDate(b, s[1..]);
      assert InsertByDate(b, s) == [s[0]] + rest;
      InsertKeepsTies(b, s[1..], d);
      // `s[0]` is strictly newer than `b`: when `b` is a tie, `s[0]` is not
      var ties: seq<Booking> := if b.date == d then [b] else [];
      assert ties == [] || !DatedOn(d)(s[0]);
      FilterPastHead(s, rest, DatedOn(d), ties);
    }
  }

  /** The sort is stable: bookings with equal dates keep their relative order. */
  lemma {:induction false} SortKeepsTies(s: seq<Booking>, d: int)
    ensures Filter(SortNewestFirst(s), DatedOn(d)) == Filter(s, DatedOn(d))
  {
    if s != [] {
      SortKeepsTies(s[1..], d);
      InsertKeepsTies(s[0], SortNewestFirst(s[1..]), d);
    }
  }

  /** `recentBookings`: the first five of the sorted copy. */
  function RecentBookings(bs: seq<Booking>): (r: seq<Booking>)
    ensures |r| == if |bs| < RECENT_COUNT then |bs| else RECENT_COUNT
    ensures NewestFirst(r)
    ensures multiset(r) <= multiset(bs)
  {
    var sorted := SortNewestFirst(bs);
    var k := if |bs| < RECENT_COUNT then |bs| else RECENT_COUNT;
    SortIsNewestFirst(bs);
    assert sorted == sorted[..k] + sorted[k..];
    sorted[..k]
  }

  /** Every booking left out of the recent list is no newer than any booking in it. */
  lemma RecentAreTheNewest(bs: seq<Booking>)
    ensures forall x, y :: (x in multiset(bs) - multiset(RecentBookings(bs)) && y in RecentBookings(bs)
      ==> x.date <= y.date)
  {
    var sorted := SortNewestFirst(bs);
    var r := RecentBookings(bs);
    var rest := sorted[|r|..];
    SortIsNewestFirst(bs);
    assert sorted == r + rest;
    assert multiset(bs) - multiset(r) == multiset(rest);
    NewestFirstSplit(r, rest);
  }

  /** In a newest-first list, the tail is no newer than the head. */
  lemma NewestFirstSplit(a: seq<Booking>, c: seq<Booking>)
    requires NewestFirst(a + c)
    ensures forall x, y :: x in c && y in a ==> x.date <= y.date
  {
    forall x, y | x in c && y in a
      ensures x.date <= y.date
    {
      var m :| 0 <= m < |c| && c[m] == x;
      var n :| 0 <= n < |a| && a[n] == y;
      assert (a + c)[n] == y && (a + c)[|a| + m] == x;
    }
  }

  // ---------------------------------------------------------------------
  // The four cards
  // ---------------------------------------------------------------------

  datatype Stats = Stats(totalBookings: nat, pendingBookings: nat, activeServices: nat, monthRevenue: nat)

  function DashboardStats(bs: seq<Booking>, monthOf: int -> nat, month: nat): (s: Stats)
    ensures s.totalBookings == |bs|
    ensures s.pendingBookings <= s.totalBookings
    ensures s.activeServices <= s.totalBookings
    ensures s.activeServices >= 1 <==> s.totalBookings > 0
  {
    Stats(|bs|, |PendingBookings(bs)|, ActiveServices(bs), MonthRevenue(bs, monthOf, month))
  }
}
