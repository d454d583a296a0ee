/** The dashboard's order statistics: daily series, today and this month, counts by status. Times
    are in microseconds. */
module Overview {
  import opened Orders

  const DAY := 86400_000_000

  // ----- Calendar -----

  datatype Date = Date(year: nat, month: nat, day: nat)

  predicate Leap(year: nat) {
    year % 4 == 0 && (year % 100 != 0 || year % 400 == 0)
  }

  function DaysInMonth(year: nat, month: nat): nat {
    if month == 2 then (if Leap(year) then 29 else 28)
    else if month in {4, 6, 9, 11} then 30 else 31
  }

  predicate ValidDate(d: Date) {
    d.year >= 1 && 1 <= d.month <= 12 && 1 <= d.day <= DaysInMonth(d.year, d.month)
  }

  function DaysBeforeMonth(year: nat, month: nat): nat {
    if month <= 1 then 0 else DaysBeforeMonth(year, month - 1) + DaysInMonth(year, month - 1)
  }

  function DaysBeforeYear(year: nat): nat {
    if year <= 1 then 0 else DaysBeforeYear(year - 1) + if Leap(year - 1) then 366 else 365
  }

  /** Days since 31 December of the year 0, as Python's `date.toordinal` counts them. */
  function Ordinal(d: Date): nat {
    DaysBeforeYear(d.year) + DaysBeforeMonth(d.year, d.month) + d.day
  }

  function FirstOfMonth(d: Date): Date {
    d.(day := 1)
  }

  function StartOfNextMonth(d: Date): Date {
    if d.month == 12 then Date(d.year + 1, 1, 1) else Date(d.year, d.month + 1, 1)
  }

  lemma {:induction false} YearLength(year: nat)
    ensures DaysBeforeMonth(year, 12) + 31 == if Leap(year) then 366 else 365
  {
    MonthsUnrolled(year, 8);
    MonthsUnrolled(year, 12);
    assert DaysBeforeMonth(year, 4) == 31 + DaysInMonth(year, 2) + 31 by {
      assert DaysBeforeMonth(year, 1) == 0;
      assert DaysBeforeMonth(year, 2) == 31;
      assert DaysBeforeMonth(year, 3) == 31 + DaysInMonth(year, 2);
    }
  }

  lemma MonthsUnrolled(year: nat, month: nat)
    requires month >= 5
    ensures DaysBeforeMonth(year, month) ==
            DaysBeforeMonth(year, month - 4) + DaysInMonth(year, month - 4) + DaysInMonth(year, month - 3) +
            DaysInMonth(year, month - 2) + DaysInMonth(year, month - 1)
  {
    assert DaysBeforeMonth(year, month - 1) == DaysBeforeMonth(year, month - 2) + DaysInMonth(year, month - 2);
    assert DaysBeforeMonth(year, month - 2) == DaysBeforeMonth(year, month - 3) + DaysInMonth(year, month - 3);
    assert DaysBeforeMonth(year, month - 3) == DaysBeforeMonth(year, month - 4) + DaysInMonth(year, month - 4);
  }

  /** The next month starts right after the days of this one, in December too. */
  lemma {:induction false} NextMonthFollows(d: Date)
    requires ValidDate(d)
    ensures ValidDate(StartOfNextMonth(d))
    ensures Ordinal(StartOfNextMonth(d)) == Ordinal(FirstOfMonth(d)) + DaysInMonth(d.year, d.month)
    ensures Ordinal(FirstOfMonth(d)) <= Ordinal(d) < Ordinal(StartOfNextMonth(d))
  {
    hide Leap;
    if d.month == 12 {
      YearLength(d.year);
      assert DaysBeforeYear(d.year + 1) == DaysBeforeYear(d.year) + if Leap(d.year) then 366 else 365;
    } else {
      assert DaysBeforeMonth(d.year, d.month + 1) == DaysBeforeMonth(d.year, d.month) + DaysInMonth(d.year, d.month);
    }
  }

  /** Midnight UTC of the day with this ordinal, on a clock that is 0 at ordinal 0. */
  function StartOfDay(ordinal: nat): int {
    ordinal * DAY
  }

  function UtcDay(t: nat): nat {
    t / DAY
  }

  // ----- Aggregates -----

  /** `count()` over the orders created in `[from, until)`. */
  function CountIn(orders: seq<Order>, from: int, until: int): nat {
    if orders == [] then 0
    else
      var last := orders[|orders| - 1];
      CountIn(orders[..|orders| - 1], from, until) + if from <= last.createdAt < until then 1 else 0
  }

  /** The sum of the totals of the completed ones among them. */
  function RevenueIn(orders: seq<Order>, from: int, until: int): int {
    if orders == [] then 0
    else
      var last := orders[|orders| - 1];
      RevenueIn(orders[..|orders| - 1], from, until) +
      if from <= last.createdAt < until && last.status == Completed then last.total else 0
  }

  datatype PeriodStats = PeriodStats(orders: nat, revenue: int)

  datatype DayStats = DayStats(date: nat, stats: PeriodStats)

  const ZERO := PeriodStats(0, 0)

  function Period(orders: seq<Order>, from: int, until: int): PeriodStats {
    PeriodStats(CountIn(orders, from, until), RevenueIn(orders, from, until))
  }

  /** Adjacent periods add up: nothing is lost or counted twice. */
  lemma {:induction false} PeriodsAdd(orders: seq<Order>, a: int, b: int, c: int)
    requires a <= b <= c
    ensures CountIn(orders, a, c) == CountIn(orders, a, b) + CountIn(orders, b, c)
    ensures RevenueIn(orders, a, c) == RevenueIn(orders, a, b) + RevenueIn(orders, b, c)
  {
    if orders != [] {
      PeriodsAdd(orders[..|orders| - 1], a, b, c);
    }
  }

  /** `GROUP BY` the UTC day, over the rows of a window. */
  function GroupByDay(orders: seq<Order>, from: int, until: int): map<nat, PeriodStats> {
    if orders == [] then map[]
    else
      var last := orders[|orders| - 1];
      var groups := GroupByDay(orders[..|orders| - 1], from, until);
      if from <= last.createdAt < until then
        var day := UtcDay(last.createdAt);
        var group := if day in groups then groups[day] else ZERO;
        groups[day := PeriodStats(group.orders + 1, group.revenue + if last.status == Completed then last.total else 0)]
      else groups
  }

  /** A day's group is what that day holds; a day without a group holds nothing. */
  lemma {:induction false} GroupIsDay(orders: seq<Order>, first: nat, today: nat, day: nat)
    requires first <= day <= today
    ensures var groups := GroupByDay(orders, StartOfDay(first), StartOfDay(today + 1));
            Period(orders, StartOfDay(day), StartOfDay(day + 1)) == if day in groups then groups[day] else ZERO
  {
    if orders != [] {
      var last := orders[|orders| - 1];
      GroupIsDay(orders[..|orders| - 1], first, today, day);
      DayOf(last.createdAt, day);
      assert first * DAY <= day * DAY && (day + 1) * DAY <= (today + 1) * DAY;
    }
  }

  lemma DayOf(t: nat, day: nat)
    ensures UtcDay(t) == day <==> StartOfDay(day) <= t < StartOfDay(day + 1)
  {
  }

  /** The month-to-date series: a zero-filled point for every day. */
  method LoadRevenueByDay(orders: seq<Order>, first: nat, today: nat) returns (series: seq<DayStats>)
    requires first <= today
    ensures |series| == today - first + 1
    ensures forall i :: 0 <= i < |series| ==>
                          series[i] ==
                          DayStats(first + i, Period(orders, StartOfDay(first + i), StartOfDay(first + i + 1)))
  {
    hide StartOfDay, GroupByDay;
    var byDay := GroupByDay(orders, StartOfDay(first), StartOfDay(today + 1));
    series := [];
    var current := first;
    while current <= today
      invariant first <= current <= today + 1 && |series| == current - first
      invariant forall i :: 0 <= i < |series| ==>
                              series[i] ==
                              DayStats(first + i, Period(orders, StartOfDay(first + i), StartOfDay(first + i + 1)))
    {
      GroupIsDay(orders, first, today, current);
      var stats := if current in byDay then byDay[current] else ZERO;
      series := series + [DayStats(current, stats)];
      current := current + 1;
    }
  }

  function SumOrders(series: seq<DayStats>): nat {
    if series == [] then 0 else SumOrders(series[..|series| - 1]) + series[|series| - 1].stats.orders
  }

  function SumRevenue(series: seq<DayStats>): int {
    if series == [] then 0 else SumRevenue(series[..|series| - 1]) + series[|series| - 1].stats.revenue
  }

  /** `series` is what the series method returns. */
  ghost predicate IsSeries(series: seq<DayStats>, orders: seq<Order>, first: nat) {
    forall i :: 0 <= i < |series| ==>
                  series[i] ==
                  DayStats(first + i, Period(orders, StartOfDay(first + i), StartOfDay(first + i + 1)))
  }

  /** The series adds up to the whole window it covers. */
  lemma {:induction false} SeriesAddsUp(series: seq<DayStats>, orders: seq<Order>, first: nat)
    requires IsSeries(series, orders, first)
    ensures PeriodStats(SumOrders(series), SumRevenue(series)) ==
            Period(orders, StartOfDay(first), StartOfDay(first + |series|))
  {
    hide CountIn, RevenueIn;
    if series == [] {
      EmptyPeriod(orders, StartOfDay(first));
    } else {
      var n := |series| - 1;
      SeriesAddsUp(series[..n], orders, first);
      assert first * DAY <= (first + n) * DAY <= (first + n + 1) * DAY;
      PeriodsAdd(orders, StartOfDay(first), StartOfDay(first + n), StartOfDay(first + n + 1));
    }
  }

  lemma {:induction false} EmptyPeriod(orders: seq<Order>, t: int)
    ensures Period(orders, t, t) == ZERO
  {
    if orders != [] {
      EmptyPeriod(orders[..|orders| - 1], t);
    }
  }

  datatype SalesStats = SalesStats(today: PeriodStats, thisMonth: PeriodStats)

  /** Both periods filtered out of one scan of the month's rows. */
  function LoadSales(orders: seq<Order>, dayStart: int, dayEnd: int, monthStart: int, monthEnd: int): SalesStats {
    var month := MonthRows(orders, monthStart, monthEnd);
    SalesStats(Period(month, dayStart, dayEnd), Period(month, monthStart, monthEnd))
  }

  function MonthRows(orders: seq<Order>, from: int, until: int): seq<Order> {
    if orders == [] then []
    else
      var last := orders[|orders| - 1];
      MonthRows(orders[..|orders| - 1], from, until) + if from <= last.createdAt < until then [last] else []
  }

  lemma {:induction false} MonthRowsSuffice(orders: seq<Order>, from: int, until: int, a: int, b: int)
    requires from <= a && b <= until
    ensures Period(MonthRows(orders, from, until), a, b) == Period(orders, a, b)
  {
    if orders != [] {
      var init, last := orders[..|orders| - 1], orders[|orders| - 1];
      MonthRowsSuffice(init, from, until, a, b);
      if from <= last.createdAt < until {
        assert (MonthRows(init, from, until) + [last])[..|MonthRows(init, from, until)|] ==
             MonthRows(init, from, until);
      } else {
        assert MonthRows(init, from, until) + [] == MonthRows(init, from, until);
      }
    }
  }

  /** On one snapshot the dashboard agrees with itself: last point, today, month to date and month. */
  lemma {:induction false} DashboardAgrees(orders: seq<Order>, today: Date, series: seq<DayStats>)
    requires ValidDate(today)
    requires IsSeries(series, orders, Ordinal(FirstOfMonth(today)))
    requires |series| == Ordinal(today) - Ordinal(FirstOfMonth(today)) + 1
    ensures var dayEnd, monthEnd := StartOfDay(Ordinal(today) + 1), StartOfDay(Ordinal(StartOfNextMonth(today)));
            var sales := LoadSales(orders, StartOfDay(Ordinal(today)), dayEnd,
                                   StartOfDay(Ordinal(FirstOfMonth(today))), monthEnd);
            |series| == today.day &&
            series[|series| - 1] == DayStats(Ordinal(today), sales.today) &&
            sales.thisMonth.orders == SumOrders(series) + CountIn(orders, dayEnd, monthEnd) &&
            sales.thisMonth.revenue == SumRevenue(series) + RevenueIn(orders, dayEnd, monthEnd)
  {
    hide CountIn, RevenueIn, SumOrders, SumRevenue, MonthRows, DaysBeforeMonth, DaysBeforeYear, DaysInMonth;
    NextMonthFollows(today);
    var f, t, n := Ordinal(FirstOfMonth(today)), Ordinal(today), Ordinal(StartOfNextMonth(today));
    assert StartOfDay(f) <= StartOfDay(t) <= StartOfDay(t + 1) <= StartOfDay(n);
    MonthRowsSuffice(orders, StartOfDay(f), StartOfDay(n), StartOfDay(t), StartOfDay(t + 1));
    MonthRowsSuffice(orders, StartOfDay(f), StartOfDay(n), StartOfDay(f), StartOfDay(n));
    SeriesAddsUp(series, orders, f);
    PeriodsAdd(orders, StartOfDay(f), StartOfDay(t + 1), StartOfDay(n));
  }

  // ----- Orders by status -----

  const STATUSES := [Pending, Confirmed, Processing, Shipping, Completed, Cancelled]

  function CountStatus(orders: seq<Order>, status: OrderStatus): nat {
    if orders == [] then 0
    else CountStatus(orders[..|orders| - 1], status) + if orders[|orders| - 1].status == status then 1 else 0
  }

  /** `GROUP BY status`: only the statuses in use. */
  function GroupByStatus(orders: seq<Order>): map<OrderStatus, nat> {
    if orders == [] then map[]
    else
      var groups, status := GroupByStatus(orders[..|orders| - 1]), orders[|orders| - 1].status;
      groups[status := (if status in groups then groups[status] else 0) + 1]
  }

  lemma {:induction false} GroupIsStatus(orders: seq<Order>, status: OrderStatus)
    ensures CountStatus(orders, status) == if status in GroupByStatus(orders) then GroupByStatus(orders)[status] else 0
  {
    if orders != [] {
      GroupIsStatus(orders[..|orders| - 1], status);
    }
  }

  method LoadOrdersByStatus(orders: seq<Order>) returns (counts: map<OrderStatus, nat>)
    ensures counts.Keys == set s | s in STATUSES
    ensures forall s :: s in STATUSES ==> counts[s] == CountStatus(orders, s)
  {
    hide GroupByStatus;
    counts := map s | s in STATUSES :: 0;
    var groups := GroupByStatus(orders);
    for i := 0 to |STATUSES|
      invariant counts.Keys == set s | s in STATUSES
      invariant forall j :: 0 <= j < |STATUSES| ==>
                            counts[STATUSES[j]] == if j < i then CountStatus(orders, STATUSES[j]) else 0
    {
      GroupIsStatus(orders, STATUSES[i]);
      if STATUSES[i] in groups {
        counts := counts[STATUSES[i] := groups[STATUSES[i]]];
      }
    }
  }

  /** The six counts add up to all orders. */
  lemma {:induction false} StatusCountsAddUp(orders: seq<Order>)
    ensures CountStatus(orders, Pending) + CountStatus(orders, Confirmed) + CountStatus(orders, Processing) +
            CountStatus(orders, Shipping) + CountStatus(orders, Completed) + CountStatus(orders, Cancelled) == |orders|
  {
    if orders != [] {
      StatusCountsAddUp(orders[..|orders| - 1]);
    }
  }
}
