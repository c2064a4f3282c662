/** The owner dashboard: car and booking counts, revenue in total and for
    the current calendar month, and the five most recent bookings, all
    computed from the car and booking collections. */
module Dashboard {
  import opened Seqs
  import opened Records

  // ----- the queries -----

  function OwnedCars(cars: seq<Car>, owner: Id): seq<Car> {
    Filter(cars, (c: Car) => c.owner == owner)
  }

  /** The bookings whose recorded owner (copied from the car when the
      booking was made) is owner, in creation order. */
  function OwnerBookings(bs: seq<Booking>, owner: Id): seq<Booking> {
    Filter(bs, (b: Booking) => b.owner == owner)
  }

  /** The owner's bookings with exactly status s. */
  function WithStatus(bs: seq<Booking>, owner: Id, s: Status): seq<Booking> {
    Filter(bs, (b: Booking) => b.owner == owner && b.status == s)
  }

  function Price(b: Booking): int { b.price }

  /** The owner's confirmed or completed bookings. */
  function Earned(bs: seq<Booking>, owner: Id): seq<Booking> {
    Filter(bs, (b: Booking) => b.owner == owner && Earning(b.status))
  }

  /** Sum of the prices of the owner's confirmed or completed bookings. */
  function TotalRevenue(bs: seq<Booking>, owner: Id): int {
    Sum(Earned(bs, owner), Price)
  }

  /** The same sum restricted to bookings created in [lo, hi]. */
  function RevenueBetween(bs: seq<Booking>, owner: Id, lo: Millis, hi: Millis): int {
    Sum(Filter(bs, (b: Booking) => b.owner == owner && Earning(b.status) && lo <= b.createdAt <= hi), Price)
  }

  /** What a booking adds to revenue: its price when it is confirmed or
      completed, nothing otherwise. */
  function Earnings(b: Booking): int {
    if Earning(b.status) then b.price else 0
  }

  /** Revenue is the earnings summed over all the owner's bookings: pending
      and cancelled bookings contribute nothing. */
  lemma {:induction false} TotalRevenueIsEarnings(bs: seq<Booking>, owner: Id)
    ensures TotalRevenue(bs, owner) == Sum(OwnerBookings(bs, owner), Earnings)
    decreases |bs|
  {
    if bs != [] {
      TotalRevenueIsEarnings(bs[1..], owner);
      var b := bs[0];
      var e, o := Earned(bs[1..], owner), OwnerBookings(bs[1..], owner);
      if b.owner == owner {
        SumAppendFront(b, o, Earnings);
        if Earning(b.status) {
          SumAppendFront(b, e, Price);
        } else {
          assert Earned(bs, owner) == e;
        }
      } else {
        assert Earned(bs, owner) == e && OwnerBookings(bs, owner) == o;
      }
    }
  }

  /** A new booking changes the owner's revenue by exactly its earnings,
      and only when it is one of the owner's. */
  lemma AppendChangesRevenueByEarnings(bs: seq<Booking>, b: Booking, owner: Id)
    ensures TotalRevenue(bs + [b], owner) ==
            TotalRevenue(bs, owner) + (if b.owner == owner then Earnings(b) else 0)
  {
    var keep := (x: Booking) => x.owner == owner && Earning(x.status);
    assert Earned(bs, owner) == Filter(bs, keep);
    assert Earned(bs + [b], owner) == Filter(bs + [b], keep);
    FilterAppend(bs, b, keep);
    if keep(b) {
      SumAppend(Filter(bs, keep), b, Price);
      assert Filter(bs + [b], keep) == Filter(bs, keep) + [b];
      assert Sum(Filter(bs + [b], keep), Price) == Sum(Filter(bs, keep), Price) + b.price;
    } else {
      assert Filter(bs + [b], keep) == Filter(bs, keep);
    }
  }

  /** The four status counts partition the owner's bookings. */
  lemma {:induction false} StatusCountsPartition(bs: seq<Booking>, owner: Id)
    ensures |OwnerBookings(bs, owner)| ==
            |WithStatus(bs, owner, Pending)| + |WithStatus(bs, owner, Confirmed)|
            + |WithStatus(bs, owner, Completed)| + |WithStatus(bs, owner, Cancelled)|
    decreases |bs|
  {
    if bs != [] {
      StatusCountsPartition(bs[1..], owner);
    }
  }

  /** The monthly revenue never exceeds the total revenue when no price is
      negative, whatever the window. */
  lemma WindowRevenueAtMostTotal(bs: seq<Booking>, owner: Id, lo: Millis, hi: Millis)
    requires forall i :: 0 <= i < |bs| ==> bs[i].price >= 0
    ensures RevenueBetween(bs, owner, lo, hi) <= TotalRevenue(bs, owner)
  {
    SumFilterMonotone(bs, Price,
      (b: Booking) => b.owner == owner && Earning(b.status) && lo <= b.createdAt <= hi,
      (b: Booking) => b.owner == owner && Earning(b.status));
  }

  /** The recent list: the owner's bookings newest first, at most five. */
  function Recent(bs: seq<Booking>, owner: Id): seq<Booking> {
    Take(Reverse(OwnerBookings(bs, owner)), 5)
  }

  /** Over a creation-ordered store the recent list holds at most five of
      the owner's bookings, newest first, and no booking of the owner that
      is left out is newer than one that is listed. */
  lemma RecentIsNewestFive(bs: seq<Booking>, owner: Id)
    requires Ascending(bs, BookingStamp)
    ensures var r := Recent(bs, owner);
            && |r| <= 5
            && |r| == (if |OwnerBookings(bs, owner)| < 5 then |OwnerBookings(bs, owner)| else 5)
            && (forall i :: 0 <= i < |r| ==> r[i] in bs && r[i].owner == owner)
            && Descending(r, BookingStamp)
            && (forall b :: b in OwnerBookings(bs, owner) && b !in r ==>
                  forall i :: 0 <= i < |r| ==> b.createdAt <= r[i].createdAt)
  {
    var o := OwnerBookings(bs, owner);
    NewestFirstOrder(bs, (b: Booking) => b.owner == owner, BookingStamp);
    var rev := Reverse(o);
    TakeOfDescending(rev, 5, BookingStamp);
    var r := Take(rev, 5);
    forall b | b in o && b !in r ensures forall i :: 0 <= i < |r| ==> b.createdAt <= r[i].createdAt {
      var k :| 0 <= k < |rev| && rev[k] == b;
      assert r == rev[..|r|];
      assert k >= |r|;
      assert forall i :: 0 <= i < |r| ==> BookingStamp(rev[k]) <= BookingStamp(r[i]);
    }
  }

  /** Whatever the store's order, the recent list read backwards is the
      last few of the owner's bookings in store order: it lists distinct
      entries of the store, never one twice. */
  lemma RecentAreTheLatest(bs: seq<Booking>, owner: Id)
    ensures var r, o := Recent(bs, owner), OwnerBookings(bs, owner);
            && |r| == (if |o| < 5 then |o| else 5)
            && Reverse(r) == o[|o| - |r|..]
            && IsSubsequence(Reverse(r), o)
  {
    var o := OwnerBookings(bs, owner);
    NewestOfReverse(o, 5);
    NewestIsSubsequence(o, 5);
  }

  // ----- the calendar month -----

  /** Gregorian leap years. */
  predicate IsLeapYear(year: int) {
    (year % 4 == 0 && year % 100 != 0) || year % 400 == 0
  }

  /** Days in month `month` (0 for January, as `Date.getMonth` counts) of
      `year`: the day-of-month of `new Date(year, month + 1, 0)`. */
  function DaysInMonth(year: int, month: int): (n: int)
    requires 0 <= month < 12
    ensures 28 <= n <= 31
    ensures n == 29 <==> month == 1 && IsLeapYear(year)
    ensures n == 28 <==> month == 1 && !IsLeapYear(year)
    ensures n == 30 <==> month == 3 || month == 5 || month == 8 || month == 10
    ensures n == 31 <==> month != 1 && month != 3 && month != 5 && month != 8 && month != 10
  {
    if month == 1 then (if IsLeapYear(year) then 29 else 28)
    else if month == 3 || month == 5 || month == 8 || month == 10 then 30
    else 31
  }

  /** The twelve months add up to the year: 365 days, 366 in a leap year. */
  lemma MonthsMakeTheYear(year: int)
    ensures DaysInMonth(year, 0) + DaysInMonth(year, 1) + DaysInMonth(year, 2) + DaysInMonth(year, 3)
            + DaysInMonth(year, 4) + DaysInMonth(year, 5) + DaysInMonth(year, 6) + DaysInMonth(year, 7)
            + DaysInMonth(year, 8) + DaysInMonth(year, 9) + DaysInMonth(year, 10) + DaysInMonth(year, 11)
            == if IsLeapYear(year) then 366 else 365
  {
  }

  /** The upper bound the handler queries with: the last day of the month
      at 00:00, which `new Date(year, month + 1, 0)` denotes. */
  function LastDayStart(monthStart: Millis, year: int, month: int): (t: Millis)
    requires 0 <= month < 12
    ensures monthStart + 27 * DayMs <= t <= monthStart + 30 * DayMs
    ensures t + DayMs == monthStart + DaysInMonth(year, month) * DayMs
  {
    monthStart + (DaysInMonth(year, month) - 1) * DayMs
  }

  /** The last instant of the month. */
  function MonthEnd(monthStart: Millis, year: int, month: int): Millis
    requires 0 <= month < 12
  {
    monthStart + DaysInMonth(year, month) * DayMs - 1
  }

  /** Monthly revenue with the window as written: bookings created after
      midnight of the month's last day fall outside it. */
  function MonthlyRevenueAsWritten(bs: seq<Booking>, owner: Id, monthStart: Millis, year: int, month: int): int
    requires 0 <= month < 12
  {
    RevenueBetween(bs, owner, monthStart, LastDayStart(monthStart, year, month))
  }

  /** Monthly revenue over the whole month, the window the handler
      evidently means. */
  function MonthlyRevenue(bs: seq<Booking>, owner: Id, monthStart: Millis, year: int, month: int): int
    requires 0 <= month < 12
  {
    RevenueBetween(bs, owner, monthStart, MonthEnd(monthStart, year, month))
  }

  /** The window as written never counts more than the whole month: it
      only leaves bookings out. */
  lemma AsWrittenAtMostWholeMonth(bs: seq<Booking>, owner: Id, monthStart: Millis, year: int, month: int)
    requires 0 <= month < 12
    requires forall i :: 0 <= i < |bs| ==> bs[i].price >= 0
    ensures MonthlyRevenueAsWritten(bs, owner, monthStart, year, month) <= MonthlyRevenue(bs, owner, monthStart, year, month)
  {
    var lo, mid, hi := monthStart, LastDayStart(monthStart, year, month), MonthEnd(monthStart, year, month);
    SumFilterMonotone(bs, Price,
      (b: Booking) => b.owner == owner && Earning(b.status) && lo <= b.createdAt <= mid,
      (b: Booking) => b.owner == owner && Earning(b.status) && lo <= b.createdAt <= hi);
  }

  predicate InMonth(t: Millis, monthStart: Millis, year: int, month: int)
    requires 0 <= month < 12
  {
    monthStart <= t < monthStart + DaysInMonth(year, month) * DayMs
  }

  /** A booking earned at noon on the month's last day is left out of the
      monthly revenue as written, and counted by the corrected window. */
  lemma LastDayMissedAsWritten(owner: Id, monthStart: Millis, year: int, month: int)
    requires 0 <= month < 12
    ensures var t := LastDayStart(monthStart, year, month) + DayMs / 2;
            var bs := [Booking(0, 0, 0, owner, 0, DayMs, Confirmed, 100, t)];
            && InMonth(t, monthStart, year, month)
            && MonthlyRevenueAsWritten(bs, owner, monthStart, year, month) == 0
            && MonthlyRevenue(bs, owner, monthStart, year, month) == 100
  {
    var t := LastDayStart(monthStart, year, month) + DayMs / 2;
    var bs := [Booking(0, 0, 0, owner, 0, DayMs, Confirmed, 100, t)];
    assert bs[1..] == [];
  }

  /** The corrected monthly revenue sums exactly the owner's confirmed or
      completed bookings created during the month. */
  lemma MonthlyRevenueCoversMonth(bs: seq<Booking>, owner: Id, monthStart: Millis, year: int, month: int)
    requires 0 <= month < 12
    ensures MonthlyRevenue(bs, owner, monthStart, year, month) ==
            Sum(Filter(bs, (b: Booking) => b.owner == owner && Earning(b.status)
                                         && InMonth(b.createdAt, monthStart, year, month)), Price)
  {
    var hi := MonthEnd(monthStart, year, month);
    FilterCongruent(bs,
      (b: Booking) => b.owner == owner && Earning(b.status) && monthStart <= b.createdAt <= hi,
      (b: Booking) => b.owner == owner && Earning(b.status) && InMonth(b.createdAt, monthStart, year, month));
  }

  /** When every earning booking of the owner was created this month, the
      month's revenue is the total revenue. */
  lemma {:induction false} AllThisMonthIsTotal(bs: seq<Booking>, owner: Id, monthStart: Millis, year: int, month: int)
    requires 0 <= month < 12
    requires forall i :: 0 <= i < |bs| && bs[i].owner == owner && Earning(bs[i].status) ==>
               InMonth(bs[i].createdAt, monthStart, year, month)
    ensures MonthlyRevenue(bs, owner, monthStart, year, month) == TotalRevenue(bs, owner)
  {
    var hi := MonthEnd(monthStart, year, month);
    FilterCongruent(bs,
      (b: Booking) => b.owner == owner && Earning(b.status) && monthStart <= b.createdAt <= hi,
      (b: Booking) => b.owner == owner && Earning(b.status));
  }

  // ----- the statistics -----

  datatype Stats = Stats(
    totalCars: nat,
    totalBookings: nat,
    pendingBookings: nat,
    completedBookings: nat,
    confirmedBookings: nat,
    monthlyRevenue: int,
    totalRevenue: int,
    recentBookings: seq<Booking>)

  /** GET /dashboard/stats for an owner. `monthStart` is midnight of the
      first day of the current month, `year` and `month` the current
      calendar year and month. The monthly revenue uses the handler's
      window, which ends at midnight of the month's last day. */
  function DashboardStats(cars: seq<Car>, bs: seq<Booking>, caller: Caller,
                          monthStart: Millis, year: int, month: int): (r: Stats)
    requires caller.role == Owner && 0 <= month < 12
    requires forall i :: 0 <= i < |bs| ==> bs[i].price >= 0
    ensures r.totalCars == |OwnedCars(cars, caller.id)|
    ensures r.totalBookings == |OwnerBookings(bs, caller.id)|
    ensures r.pendingBookings == |WithStatus(bs, caller.id, Pending)|
    ensures r.confirmedBookings == |WithStatus(bs, caller.id, Confirmed)|
    ensures r.completedBookings == |WithStatus(bs, caller.id, Completed)|
    ensures r.totalBookings == r.pendingBookings + r.confirmedBookings + r.completedBookings
                               + |WithStatus(bs, caller.id, Cancelled)|
    ensures r.monthlyRevenue == MonthlyRevenueAsWritten(bs, caller.id, monthStart, year, month)
    ensures 0 <= r.monthlyRevenue <= r.totalRevenue
    ensures r.monthlyRevenue <= MonthlyRevenue(bs, caller.id, monthStart, year, month)
    ensures r.totalRevenue == Sum(OwnerBookings(bs, caller.id), Earnings)
    ensures r.recentBookings == Recent(bs, caller.id)
    ensures |r.recentBookings| <= 5
    ensures forall i :: 0 <= i < |r.recentBookings| ==>
              r.recentBookings[i] in bs && r.recentBookings[i].owner == caller.id
  {
    var owner := caller.id;
    StatusCountsPartition(bs, owner);
    WindowRevenueAtMostTotal(bs, owner, monthStart, LastDayStart(monthStart, year, month));
    TotalRevenueIsEarnings(bs, owner);
    NonNegativeRevenue(bs, owner, monthStart, LastDayStart(monthStart, year, month));
    AsWrittenAtMostWholeMonth(bs, owner, monthStart, year, month);
    Stats(
      |OwnedCars(cars, owner)|,
      |OwnerBookings(bs, owner)|,
      |WithStatus(bs, owner, Pending)|,
      |WithStatus(bs, owner, Completed)|,
      |WithStatus(bs, owner, Confirmed)|,
      MonthlyRevenueAsWritten(bs, owner, monthStart, year, month),
      TotalRevenue(bs, owner),
      Recent(bs, owner))
  }

  /** A sum of non-negative prices is not negative. */
  lemma {:induction false} NonNegativeSum(s: seq<Booking>)
    requires forall i :: 0 <= i < |s| ==> s[i].price >= 0
    ensures Sum(s, Price) >= 0
    decreases |s|
  {
    if s != [] {
      NonNegativeSum(s[1..]);
    }
  }

  lemma NonNegativeRevenue(bs: seq<Booking>, owner: Id, lo: Millis, hi: Millis)
    requires forall i :: 0 <= i < |bs| ==> bs[i].price >= 0
    ensures RevenueBetween(bs, owner, lo, hi) >= 0
  {
    NonNegativeSum(Filter(bs, (b: Booking) => b.owner == owner && Earning(b.status) && lo <= b.createdAt <= hi));
  }
}
