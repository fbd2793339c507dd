/** The admin dashboard's aggregates over the order ledger: the current month's
    revenue with the quantity and revenue of "Records" and "Booklets" items,
    and the zero-filled daily revenue series thinned out for the chart. The
    current year and month are parameters (the page reads them from the clock). */
module AdminStats {
  import opened Model
  import Decimal
  import CartLines

  predicate IsLeapYear(year: int) {
    year % 4 == 0 && (year % 100 != 0 || year % 400 == 0)
  }

  /** Gregorian month length, month counted from 0: the day of
      `new Date(year, month + 1, 0)`. */
  function DaysInMonth(year: int, month: int): (n: int)
    requires 0 <= month < 12
    ensures 28 <= n <= 31
    ensures month == 1 ==> (n == 29 <==> IsLeapYear(year))
    ensures month != 1 ==> n >= 30
  {
    if month == 1 then (if IsLeapYear(year) then 29 else 28)
    else if month in {3, 5, 8, 10} then 30
    else 31
  }

  /** A date a `Date` object can report. */
  predicate ValidDate(d: Date) {
    0 <= d.month < 12 && 1 <= d.day <= DaysInMonth(d.year, d.month)
  }

  predicate InMonth(o: Order, year: int, month: int) {
    o.createdAt.month == month && o.createdAt.year == year
  }

  /** The orders placed in the given month, in ledger order. */
  function MonthOrders(orders: seq<Order>, year: int, month: int): (r: seq<Order>)
    ensures forall o :: o in r <==> o in orders && InMonth(o, year, month)
  {
    if orders == [] then []
    else
      var o := orders[|orders| - 1];
      MonthOrders(orders[..|orders| - 1], year, month) + (if InMonth(o, year, month) then [o] else [])
  }

  function SumTotals(orders: seq<Order>): int {
    if orders == [] then 0 else SumTotals(orders[..|orders| - 1]) + orders[|orders| - 1].total
  }

  /** The month's revenue: the stored totals of its orders. */
  function MonthRevenue(orders: seq<Order>, year: int, month: int): int {
    SumTotals(MonthOrders(orders, year, month))
  }

  /** Units of the items named exactly `name`. */
  function ItemsQty(items: seq<CartItem>, name: string): int {
    if items == [] then 0
    else
      var it := items[|items| - 1];
      ItemsQty(items[..|items| - 1], name) + (if it.name == name then it.quantity else 0)
  }

  /** Revenue (quantity × price) of the items named exactly `name`. */
  function ItemsAmount(items: seq<CartItem>, name: string): int {
    if items == [] then 0
    else
      var it := items[|items| - 1];
      ItemsAmount(items[..|items| - 1], name) + (if it.name == name then it.quantity * it.price else 0)
  }

  function NamedQty(orders: seq<Order>, name: string): int {
    if orders == [] then 0
    else NamedQty(orders[..|orders| - 1], name) + ItemsQty(orders[|orders| - 1].items, name)
  }

  function NamedAmount(orders: seq<Order>, name: string): int {
    if orders == [] then 0
    else NamedAmount(orders[..|orders| - 1], name) + ItemsAmount(orders[|orders| - 1].items, name)
  }

  datatype MonthStats = MonthStats(
    totalRevenue: int,
    recordsQty: int,
    recordsPrice: int,
    bookletsQty: int,
    bookletsPrice: int)

  /** `orders.filter(...)` keeping the given month's orders. */
  method FilterMonth(orders: seq<Order>, year: int, month: int) returns (monthOrders: seq<Order>)
    ensures monthOrders == MonthOrders(orders, year, month)
  {
    monthOrders := [];
    for i := 0 to |orders|
      invariant monthOrders == MonthOrders(orders[..i], year, month)
    {
      assert orders[..i + 1][..i] == orders[..i];
      if InMonth(orders[i], year, month) {
        monthOrders := monthOrders + [orders[i]];
      }
    }
    assert orders[..|orders|] == orders;
  }

  /** `orders.reduce((sum, order) => sum + order.total, 0)`. */
  method AddTotals(orders: seq<Order>) returns (sum: int)
    ensures sum == SumTotals(orders)
  {
    sum := 0;
    for i := 0 to |orders|
      invariant sum == SumTotals(orders[..i])
    {
      assert orders[..i + 1][..i] == orders[..i];
      sum := sum + orders[i].total;
    }
    assert orders[..|orders|] == orders;
  }

  /** The inner `order.items.forEach`: add each "Records" item to the first
      pair of counters and each "Booklets" item to the second. */
  method TallyItems(items: seq<CartItem>, rq0: int, rp0: int, bq0: int, bp0: int)
    returns (rq: int, rp: int, bq: int, bp: int)
    ensures rq == rq0 + ItemsQty(items, "Records") && rp == rp0 + ItemsAmount(items, "Records")
    ensures bq == bq0 + ItemsQty(items, "Booklets") && bp == bp0 + ItemsAmount(items, "Booklets")
  {
    rq, rp, bq, bp := rq0, rp0, bq0, bp0;
    for j := 0 to |items|
      invariant rq == rq0 + ItemsQty(items[..j], "Records")
      invariant rp == rp0 + ItemsAmount(items[..j], "Records")
      invariant bq == bq0 + ItemsQty(items[..j], "Booklets")
      invariant bp == bp0 + ItemsAmount(items[..j], "Booklets")
    {
      assert items[..j + 1][..j] == items[..j];
      var item := items[j];
      if item.name == "Records" {
        rq := rq + item.quantity;
        rp := rp + item.quantity * item.price;
      } else if item.name == "Booklets" {
        bq := bq + item.quantity;
        bp := bp + item.quantity * item.price;
      }
    }
    assert items[..|items|] == items;
  }

  /** `getNovemberStats`: filter the month's orders, sum their totals, then
      walk every item of every such order with four counters. It reads the
      ledger only, so equal inputs give equal statistics. */
  method ComputeMonthStats(orders: seq<Order>, year: int, month: int) returns (s: MonthStats)
    ensures s.totalRevenue == MonthRevenue(orders, year, month)
    ensures var mo := MonthOrders(orders, year, month);
      && s.recordsQty == NamedQty(mo, "Records") && s.recordsPrice == NamedAmount(mo, "Records")
      && s.bookletsQty == NamedQty(mo, "Booklets") && s.bookletsPrice == NamedAmount(mo, "Booklets")
  {
    var monthOrders := FilterMonth(orders, year, month);
    var totalRevenue := AddTotals(monthOrders);
    var recordsQty, recordsPrice, bookletsQty, bookletsPrice := 0, 0, 0, 0;
    for i := 0 to |monthOrders|
      invariant recordsQty == NamedQty(monthOrders[..i], "Records")
      invariant recordsPrice == NamedAmount(monthOrders[..i], "Records")
      invariant bookletsQty == NamedQty(monthOrders[..i], "Booklets")
      invariant bookletsPrice == NamedAmount(monthOrders[..i], "Booklets")
    {
      assert monthOrders[..i + 1][..i] == monthOrders[..i];
      recordsQty, recordsPrice, bookletsQty, bookletsPrice :=
        TallyItems(monthOrders[i].items, recordsQty, recordsPrice, bookletsQty, bookletsPrice);
    }
    assert monthOrders[..|monthOrders|] == monthOrders;
    s := MonthStats(totalRevenue, recordsQty, recordsPrice, bookletsQty, bookletsPrice);
  }

  lemma {:induction false} MonthOrdersAppend(a: seq<Order>, b: seq<Order>, year: int, month: int)
    ensures MonthOrders(a + b, year, month) == MonthOrders(a, year, month) + MonthOrders(b, year, month)
  {
    if b == [] {
      assert a + b == a;
    } else {
      var ab, init, o := a + b, b[..|b| - 1], b[|b| - 1];
      assert ab[..|ab| - 1] == a + init;
      assert ab[|ab| - 1] == o;
      MonthOrdersAppend(a, init, year, month);
      var last := if InMonth(o, year, month) then [o] else [];
      calc {
        MonthOrders(ab, year, month);
        MonthOrders(a + init, year, month) + last;
        MonthOrders(a, year, month) + MonthOrders(init, year, month) + last;
        MonthOrders(a, year, month) + (MonthOrders(init, year, month) + last);
        MonthOrders(a, year, month) + MonthOrders(b, year, month);
      }
    }
  }

  lemma {:induction false} SumTotalsAppend(a: seq<Order>, b: seq<Order>)
    ensures SumTotals(a + b) == SumTotals(a) + SumTotals(b)
  {
    if b == [] {
      assert a + b == a;
    } else {
      var ab := a + b;
      assert ab[..|ab| - 1] == a + b[..|b| - 1];
      SumTotalsAppend(a, b[..|b| - 1]);
    }
  }

  /** An order from another month contributes nothing to the month's revenue,
      wherever it stands in the ledger. */
  lemma OtherMonthIgnored(a: seq<Order>, o: Order, b: seq<Order>, year: int, month: int)
    requires !InMonth(o, year, month)
    ensures MonthRevenue(a + [o] + b, year, month) == MonthRevenue(a + b, year, month)
    ensures MonthOrders(a + [o] + b, year, month) == MonthOrders(a + b, year, month)
  {
    MonthOrdersAppend(a + [o], b, year, month);
    MonthOrdersAppend(a, [o], year, month);
    MonthOrdersAppend(a, b, year, month);
    assert MonthOrders([o], year, month) == [] by {
      assert [o][..0] == [];
    }
    assert MonthOrders(a + [o] + b, year, month) == MonthOrders(a + b, year, month);
  }

  lemma {:induction false} ItemsAppend(a: seq<CartItem>, b: seq<CartItem>, name: string)
    ensures ItemsQty(a + b, name) == ItemsQty(a, name) + ItemsQty(b, name)
    ensures ItemsAmount(a + b, name) == ItemsAmount(a, name) + ItemsAmount(b, name)
  {
    if b == [] {
      assert a + b == a;
    } else {
      var ab := a + b;
      assert ab[..|ab| - 1] == a + b[..|b| - 1];
      ItemsAppend(a, b[..|b| - 1], name);
    }
  }

  /** An item with any other name is ignored by the per-name counters. */
  lemma OtherNameIgnored(a: seq<CartItem>, it: CartItem, b: seq<CartItem>, name: string)
    requires it.name != name
    ensures ItemsQty(a + [it] + b, name) == ItemsQty(a + b, name)
    ensures ItemsAmount(a + [it] + b, name) == ItemsAmount(a + b, name)
  {
    ItemsAppend(a + [it], b, name);
    ItemsAppend(a, [it], name);
    ItemsAppend(a, b, name);
    assert [it][..0] == [];
  }

  /** A line's price × quantity, as the order totals count it, is the named
      amount of its own name and of no other. */
  lemma {:induction false} TotalPriceByName(items: seq<CartItem>)
    requires forall i :: 0 <= i < |items| ==> items[i].name in {"Records", "Booklets"}
    ensures CartLines.TotalPrice(items) == ItemsAmount(items, "Records") + ItemsAmount(items, "Booklets")
  {
    if items != [] {
      var init, last := items[..|items| - 1], items[|items| - 1];
      TotalPriceByName(init);
      assert items == init + [last];
      CartLines.TotalPriceAppend(init, [last]);
      assert CartLines.TotalPrice([last]) == last.price * last.quantity;
    }
  }

  /** When every order's total is the total of its items (as checkout writes
      it) and every item is a Records or a Booklets item, the two per-product
      revenues add up to the month's revenue. */
  lemma {:induction false} NamedAmountsMakeRevenue(orders: seq<Order>)
    requires forall i :: 0 <= i < |orders| ==> orders[i].total == CartLines.TotalPrice(orders[i].items)
    requires forall i, j :: 0 <= i < |orders| && 0 <= j < |orders[i].items| ==>
      orders[i].items[j].name in {"Records", "Booklets"}
    ensures NamedAmount(orders, "Records") + NamedAmount(orders, "Booklets") == SumTotals(orders)
  {
    if orders != [] {
      NamedAmountsMakeRevenue(orders[..|orders| - 1]);
      TotalPriceByName(orders[|orders| - 1].items);
    }
  }

  /** Revenue of the orders placed on one calendar day. */
  function DayRevenue(orders: seq<Order>, year: int, month: int, day: int): int {
    if orders == [] then 0
    else
      var o := orders[|orders| - 1];
      DayRevenue(orders[..|orders| - 1], year, month, day)
        + (if o.createdAt == Date(year, month, day) then o.total else 0)
  }

  /** The daily values of days 1..n added up. */
  function SumDays(orders: seq<Order>, year: int, month: int, n: int): int
    decreases n
  {
    if n <= 0 then 0 else SumDays(orders, year, month, n - 1) + DayRevenue(orders, year, month, n)
  }

  /** The dictionary of `getRevenueData`: every day 1..daysInMonth starts at 0,
      then each order of the month adds its total to its own day. */
  method DailyRevenue(orders: seq<Order>, year: int, month: int) returns (daily: map<int, int>)
    requires 0 <= month < 12
    requires forall i :: 0 <= i < |orders| ==> ValidDate(orders[i].createdAt)
    ensures forall d :: d in daily <==> 1 <= d <= DaysInMonth(year, month)
    ensures forall d :: d in daily ==> daily[d] == DayRevenue(orders, year, month, d)
  {
    var daysInMonth := DaysInMonth(year, month);
    daily := map[];
    for day := 1 to daysInMonth + 1
      invariant forall d :: d in daily <==> 1 <= d < day
      invariant forall d :: d in daily ==> daily[d] == 0
    {
      daily := daily[day := 0];
    }
    for i := 0 to |orders|
      invariant forall d :: d in daily <==> 1 <= d <= daysInMonth
      invariant forall d :: d in daily ==> daily[d] == DayRevenue(orders[..i], year, month, d)
    {
      assert orders[..i + 1][..i] == orders[..i];
      var o := orders[i];
      if InMonth(o, year, month) {
        var day := o.createdAt.day;
        daily := daily[day := daily[day] + o.total];
      }
    }
    assert orders[..|orders|] == orders;
  }

  /** The days the chart keeps: 1, every multiple of 5, and the last day. */
  predicate Shown(day: int, daysInMonth: int) {
    day % 5 == 0 || day == 1 || day == daysInMonth
  }

  /** The kept days among 1..n, in the ascending order of the dictionary's keys. */
  function ShownDays(daysInMonth: int, n: int): seq<nat>
    decreases n
  {
    if n <= 0 then [] else ShownDays(daysInMonth, n - 1) + (if Shown(n, daysInMonth) then [n] else [])
  }

  /** The kept days among 1..n are exactly the days of 1..n the chart shows,
      and they come in strictly ascending order. */
  lemma {:induction false} ShownDaysExact(daysInMonth: int, n: int)
    decreases n
    ensures forall d :: d in ShownDays(daysInMonth, n) <==> 1 <= d <= n && Shown(d, daysInMonth)
    ensures forall i, j :: 0 <= i < j < |ShownDays(daysInMonth, n)| ==>
      ShownDays(daysInMonth, n)[i] < ShownDays(daysInMonth, n)[j]
  {
    if n > 0 {
      ShownDaysExact(daysInMonth, n - 1);
      var earlier := ShownDays(daysInMonth, n - 1);
      assert forall i :: 0 <= i < |earlier| ==> earlier[i] in earlier;
    }
  }

  /** A chart point: the day of the month, its label (the source's `day` field)
      and its revenue. */
  datatype RevenuePoint = RevenuePoint(dayOfMonth: int, day: string, revenue: int)

  /** The chart label of a day; the page writes "Nov" whatever the month. */
  function DayLabel(day: nat): string {
    "Nov " + Decimal.DecimalString(day)
  }

  /** The chart points of the given days, in their order: the i-th point is
      the i-th day, its label and that day's revenue. */
  function Points(orders: seq<Order>, year: int, month: int, days: seq<nat>): seq<RevenuePoint> {
    seq(|days|, i requires 0 <= i < |days| =>
      RevenuePoint(days[i], DayLabel(days[i]), DayRevenue(orders, year, month, days[i])))
  }

  /** `getRevenueData`: the daily dictionary, reduced to the shown days in
      ascending order, each with its label and its day's revenue. */
  method RevenueSeries(orders: seq<Order>, year: int, month: int) returns (series: seq<RevenuePoint>)
    requires 0 <= month < 12
    requires forall i :: 0 <= i < |orders| ==> ValidDate(orders[i].createdAt)
    ensures series == Points(orders, year, month, ShownDays(DaysInMonth(year, month), DaysInMonth(year, month)))
  {
    var daysInMonth := DaysInMonth(year, month);
    var daily := DailyRevenue(orders, year, month);
    series := [];
    for day := 1 to daysInMonth + 1
      invariant series == Points(orders, year, month, ShownDays(daysInMonth, day - 1))
    {
      if Shown(day, daysInMonth) {
        var days := ShownDays(daysInMonth, day - 1);
        assert ShownDays(daysInMonth, day) == days + [day];
        series := series + [RevenuePoint(day, DayLabel(day), daily[day])];
        assert series == Points(orders, year, month, days + [day]);
      }
    }
  }

  /** Adding one order to the ledger adds its total to the sum of days 1..n
      exactly when it falls in the month on one of those days. */
  lemma {:induction false} SumDaysStep(orders: seq<Order>, o: Order, year: int, month: int, n: int)
    decreases n
    ensures SumDays(orders + [o], year, month, n)
         == SumDays(orders, year, month, n)
            + (if InMonth(o, year, month) && 1 <= o.createdAt.day <= n then o.total else 0)
  {
    var os := orders + [o];
    assert os[..|os| - 1] == orders;
    if n > 0 {
      SumDaysStep(orders, o, year, month, n - 1);
    }
  }

  /** The unfiltered daily values add up to the month's revenue. */
  lemma {:induction false} DailyValuesSumToRevenue(orders: seq<Order>, year: int, month: int)
    requires 0 <= month < 12
    requires forall i :: 0 <= i < |orders| ==> ValidDate(orders[i].createdAt)
    ensures SumDays(orders, year, month, DaysInMonth(year, month)) == MonthRevenue(orders, year, month)
  {
    var n := DaysInMonth(year, month);
    if orders == [] {
      SumDaysOfEmpty(year, month, n);
    } else {
      var init, o := orders[..|orders| - 1], orders[|orders| - 1];
      assert orders == init + [o];
      DailyValuesSumToRevenue(init, year, month);
      SumDaysStep(init, o, year, month, n);
      SumTotalsAppend(MonthOrders(init, year, month), if InMonth(o, year, month) then [o] else []);
      assert [o][..0] == [];
    }
  }

  lemma {:induction false} SumDaysOfEmpty(year: int, month: int, n: int)
    decreases n
    ensures SumDays([], year, month, n) == 0
  {
    if n > 0 {
      SumDaysOfEmpty(year, month, n - 1);
    }
  }

  /** The "Registered Users" tab: every stored user except the admin identity,
      in stored order. */
  function NonAdminUsers(users: seq<User>): (r: seq<User>)
    ensures forall u :: u in r <==> u in users && u.email != AdminEmail
    ensures |r| <= |users|
  {
    if users == [] then []
    else (if users[0].email != AdminEmail then [users[0]] else []) + NonAdminUsers(users[1..])
  }
}
