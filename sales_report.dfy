/** The aggregation behind the sales report page (src/components/page/salesReport.tsx,
    `processSalesData`): one pass over the orders of the chosen date range that
    totals new and cancelled orders, fills per-day and per-hour sales, tracks the
    best hour and sums sales per category and per product. Date arithmetic and
    formatting are outside the model: each order carries its local day
    ("yyyy-MM-dd") and hour ("HH"), and `dayAt(i)` is the formatted day `i` days
    after the start date. */
module SalesReport {
  import opened Wrappers
  import opened Promotions

  datatype Status = New | Completed | Cancelled | Refunded | Parked

  /** An hour of the day, the `"HH"` key of the hourly table. */
  type Hour = h: int | 0 <= h < 24

  datatype ReportCategory = ReportCategory(id: Id, name: string)

  datatype SoldProduct = SoldProduct(id: Id, name: string, price: int, quantity: int, category: Option<ReportCategory>)

  /** An order of the report's query; `products` is null for an order fetched without them. */
  datatype SalesOrder = SalesOrder(status: Status, total: int, day: string, hour: Hour, products: Option<seq<SoldProduct>>)

  datatype DaySales = DaySales(subTotal: int, quantitySold: nat, orders: seq<SalesOrder>)

  datatype HourSales = HourSales(hour: Hour, saleAmount: int, saleQuantity: nat)

  datatype CategorySales = CategorySales(category: ReportCategory, quantity: int, sales: int)

  datatype ProductSales = ProductSales(product: SoldProduct, quantity: int)

  /** The summary processSalesData computes. The page keeps all of it as
      `salesSummaryData` except `numberOfProductsSold`, which is computed and then
      discarded. */
  datatype Report = Report(
    daysDifference: int,
    dailySales: map<string, DaySales>,
    subTotalNew: int,
    totalNumberOfOrdersNew: nat,
    subTotalCancelled: int,
    totalNumberOfOrdersCancelled: nat,
    subTotalCompleted: int,
    totalNumberOfOrdersCompleted: nat,
    numberOfProductsSold: int,
    hourlySales: seq<HourSales>,
    bestHour: HourSales,
    mostSoldCategories: map<Id, CategorySales>,
    mostSoldProducts: map<Id, ProductSales>)

  /** What a call of processSalesData ends in: an early return with nothing set, a
      TypeError (a new order on a day the daily table lacks), or a stored summary. */
  datatype SalesOutcome = NotProcessed | Threw | Processed(report: Report)

  // ---------------------------------------------------------------------------
  // Days

  /** The number of days the daily table is reset for. */
  function DayCount(daysDifference: int): nat {
    if daysDifference < 0 then 0 else daysDifference
  }

  predicate InRange(d: string, dayAt: nat -> string, n: nat) {
    exists i :: 0 <= i < n && dayAt(i) == d
  }

  function ZeroSales(): DaySales {
    DaySales(0, 0, [])
  }

  /** The daily table after resetting the first `n` days of the range. */
  function ZeroDays(daily: map<string, DaySales>, dayAt: nat -> string, n: nat): map<string, DaySales> {
    if n == 0 then daily else ZeroDays(daily, dayAt, n - 1)[dayAt(n - 1) := ZeroSales()]
  }

  /** Resetting adds every day of the range, with zero sales, and keeps the other entries. */
  lemma {:induction false} ZeroDaysContents(daily: map<string, DaySales>, dayAt: nat -> string, n: nat, d: string)
    ensures d in ZeroDays(daily, dayAt, n) <==> d in daily || InRange(d, dayAt, n)
    ensures InRange(d, dayAt, n) ==> ZeroDays(daily, dayAt, n)[d] == ZeroSales()
    ensures !InRange(d, dayAt, n) && d in daily ==> ZeroDays(daily, dayAt, n)[d] == daily[d]
  {
    if n > 0 {
      ZeroDaysContents(daily, dayAt, n - 1, d);
      if dayAt(n - 1) != d {
        if InRange(d, dayAt, n) {
          var i :| 0 <= i < n && dayAt(i) == d;
          assert i < n - 1;
        }
        if InRange(d, dayAt, n - 1) {
          var i :| 0 <= i < n - 1 && dayAt(i) == d;
          assert i < n;
        }
      }
    }
  }

  // ---------------------------------------------------------------------------
  // Categories and products

  function ProductsOf(o: SalesOrder): seq<SoldProduct> {
    if o.products.Some? then o.products.value else []
  }

  /** Category sales after the products `ps`, one after the other; products without a category are skipped. */
  function AddCategories(cats: map<Id, CategorySales>, ps: seq<SoldProduct>): map<Id, CategorySales> {
    if ps == [] then cats
    else
      var before := AddCategories(cats, ps[..|ps| - 1]);
      var p := Last(ps);
      if p.category.None? then before
      else
        var id := p.category.value.id;
        if id in before then
          before[id := CategorySales(p.category.value, before[id].quantity + p.quantity, before[id].sales + p.price * p.quantity)]
        else before[id := CategorySales(p.category.value, p.quantity, p.price * p.quantity)]
  }

  /** Product quantities after the products `ps`, one after the other. */
  function AddProducts(prods: map<Id, ProductSales>, ps: seq<SoldProduct>): map<Id, ProductSales> {
    if ps == [] then prods
    else
      var before := AddProducts(prods, ps[..|ps| - 1]);
      var p := Last(ps);
      if p.id in before then before[p.id := ProductSales(p, before[p.id].quantity + p.quantity)]
      else before[p.id := ProductSales(p, p.quantity)]
  }

  function SumQuantities(ps: seq<SoldProduct>): int {
    if ps == [] then 0 else SumQuantities(ps[..|ps| - 1]) + Last(ps).quantity
  }

  predicate InCategory(p: SoldProduct, id: Id) {
    p.category.Some? && p.category.value.id == id
  }

  predicate HasCategory(ps: seq<SoldProduct>, id: Id) {
    exists i :: 0 <= i < |ps| && InCategory(ps[i], id)
  }

  function CategoryQuantity(ps: seq<SoldProduct>, id: Id): int {
    if ps == [] then 0
    else CategoryQuantity(ps[..|ps| - 1], id) + (if InCategory(Last(ps), id) then Last(ps).quantity else 0)
  }

  function CategoryAmount(ps: seq<SoldProduct>, id: Id): int {
    if ps == [] then 0
    else CategoryAmount(ps[..|ps| - 1], id) + (if InCategory(Last(ps), id) then Last(ps).price * Last(ps).quantity else 0)
  }

  predicate HasProduct(ps: seq<SoldProduct>, id: Id) {
    exists i :: 0 <= i < |ps| && ps[i].id == id
  }

  function ProductQuantity(ps: seq<SoldProduct>, id: Id): int {
    if ps == [] then 0
    else ProductQuantity(ps[..|ps| - 1], id) + (if Last(ps).id == id then Last(ps).quantity else 0)
  }

  /** A category has an entry iff some product is in it; the entry sums those products'
      quantities and price times quantity. */
  lemma {:induction false} CategoriesAddUp(ps: seq<SoldProduct>, id: Id)
    ensures id in AddCategories(map[], ps) <==> HasCategory(ps, id)
    ensures id in AddCategories(map[], ps) ==>
              AddCategories(map[], ps)[id].category.id == id &&
              AddCategories(map[], ps)[id].quantity == CategoryQuantity(ps, id) &&
              AddCategories(map[], ps)[id].sales == CategoryAmount(ps, id)
    ensures id !in AddCategories(map[], ps) ==> CategoryQuantity(ps, id) == 0 && CategoryAmount(ps, id) == 0
  {
    if ps != [] {
      var init := ps[..|ps| - 1];
      CategoriesAddUp(init, id);
      var before := AddCategories(map[], init);
      if !InCategory(Last(ps), id) {
        assert id in before ==> AddCategories(map[], ps)[id] == before[id];
      }
      if HasCategory(ps, id) && !InCategory(Last(ps), id) {
        var i :| 0 <= i < |ps| && InCategory(ps[i], id);
        assert init[i] == ps[i];
      }
      if HasCategory(init, id) {
        var i :| 0 <= i < |init| && InCategory(init[i], id);
        assert ps[i] == init[i];
      }
    }
  }

  /** A product has an entry iff it was sold; the entry sums its quantities. */
  lemma {:induction false} ProductsAddUp(ps: seq<SoldProduct>, id: Id)
    ensures id in AddProducts(map[], ps) <==> HasProduct(ps, id)
    ensures id in AddProducts(map[], ps) ==>
              AddProducts(map[], ps)[id].product.id == id && AddProducts(map[], ps)[id].quantity == ProductQuantity(ps, id)
    ensures id !in AddProducts(map[], ps) ==> ProductQuantity(ps, id) == 0
  {
    if ps != [] {
      var init := ps[..|ps| - 1];
      ProductsAddUp(init, id);
      var before := AddProducts(map[], init);
      if Last(ps).id != id {
        assert id in before ==> AddProducts(map[], ps)[id] == before[id];
      }
      if HasProduct(ps, id) && Last(ps).id != id {
        var i :| 0 <= i < |ps| && ps[i].id == id;
        assert init[i] == ps[i];
      }
      if HasProduct(init, id) {
        var i :| 0 <= i < |init| && init[i].id == id;
        assert ps[i] == init[i];
      }
    }
  }

  lemma {:induction false} AddCategoriesConcat(cats: map<Id, CategorySales>, a: seq<SoldProduct>, b: seq<SoldProduct>)
    ensures AddCategories(cats, a + b) == AddCategories(AddCategories(cats, a), b)
    decreases |b|
  {
    if b == [] {
      assert a + b == a;
    } else {
      assert (a + b)[..|a + b| - 1] == a + b[..|b| - 1];
      assert Last(a + b) == Last(b);
      AddCategoriesConcat(cats, a, b[..|b| - 1]);
    }
  }

  lemma {:induction false} AddProductsConcat(prods: map<Id, ProductSales>, a: seq<SoldProduct>, b: seq<SoldProduct>)
    ensures AddProducts(prods, a + b) == AddProducts(AddProducts(prods, a), b)
    decreases |b|
  {
    if b == [] {
      assert a + b == a;
    } else {
      assert (a + b)[..|a + b| - 1] == a + b[..|b| - 1];
      assert Last(a + b) == Last(b);
      AddProductsConcat(prods, a, b[..|b| - 1]);
    }
  }

  lemma {:induction false} SumQuantitiesConcat(a: seq<SoldProduct>, b: seq<SoldProduct>)
    ensures SumQuantities(a + b) == SumQuantities(a) + SumQuantities(b)
    decreases |b|
  {
    if b == [] {
      assert a + b == a;
    } else {
      assert (a + b)[..|a + b| - 1] == a + b[..|b| - 1];
      assert Last(a + b) == Last(b);
      SumQuantitiesConcat(a, b[..|b| - 1]);
    }
  }

  /** Every product of every order that has products, in order. */
  function AllProducts(orders: seq<SalesOrder>): seq<SoldProduct> {
    if orders == [] then [] else AllProducts(orders[..|orders| - 1]) + ProductsOf(Last(orders))
  }

  // ---------------------------------------------------------------------------
  // The pass over the orders

  function InitialHours(): (r: seq<HourSales>)
    ensures |r| == 24 && forall h: Hour :: r[h] == HourSales(h, 0, 0)
  {
    seq(24, h requires 0 <= h < 24 => HourSales(h, 0, 0))
  }

  function InitialReport(daysDifference: int): Report {
    Report(daysDifference, map[], 0, 0, 0, 0, 0, 0, 0, InitialHours(), HourSales(0, 0, 0), map[], map[])
  }

  /** One iteration of the loop over the orders, on a daily table already reset;
      None when it throws (a new order whose day the table lacks). */
  function AddOrder(r: Report, o: SalesOrder): Option<Report>
    requires |r.hourlySales| == 24
  {
    var daily := r.dailySales;
    var isNew := o.status == New;
    if isNew && o.day !in daily then None
    else
      var isCancelled := o.status == Cancelled;
      var hour := HourSales(o.hour, r.hourlySales[o.hour].saleAmount + o.total, r.hourlySales[o.hour].saleQuantity + 1);
      var ps := ProductsOf(o);
      Some(Report(
        r.daysDifference,
        if isNew then daily[o.day := DaySales(daily[o.day].subTotal + o.total, daily[o.day].quantitySold + 1, daily[o.day].orders + [o])]
        else daily,
        r.subTotalNew + (if isNew then o.total else 0),
        r.totalNumberOfOrdersNew + (if isNew then 1 else 0),
        r.subTotalCancelled + (if isCancelled then o.total else 0),
        r.totalNumberOfOrdersCancelled + (if isCancelled then 1 else 0),
        r.subTotalCompleted + (if isNew then o.total else 0),
        r.totalNumberOfOrdersCompleted + (if isNew then 1 else 0),
        r.numberOfProductsSold + SumQuantities(ps),
        r.hourlySales[o.hour := hour],
        if hour.saleAmount > r.bestHour.saleAmount then hour else r.bestHour,
        AddCategories(r.mostSoldCategories, ps),
        AddProducts(r.mostSoldProducts, ps)))
  }

  /** The summary before the first order: the daily table holds every day of the
      range with zero sales, everything else is zero. */
  function Start(daysDifference: int, dayAt: nat -> string): Report {
    InitialReport(daysDifference).(dailySales := ZeroDays(map[], dayAt, DayCount(daysDifference)))
  }

  /** The summary after the orders, one after the other, with the daily table reset
      once before the pass; None once one throws. */
  function Process(orders: seq<SalesOrder>, daysDifference: int, dayAt: nat -> string): (r: Option<Report>)
    ensures r.Some? ==> |r.value.hourlySales| == 24 && r.value.daysDifference == daysDifference
  {
    if orders == [] then Some(Start(daysDifference, dayAt))
    else
      var before := Process(orders[..|orders| - 1], daysDifference, dayAt);
      if before.None? then None else AddOrder(before.value, Last(orders))
  }

  /** One iteration as written: the daily table is reset at the head of every
      iteration, not once before the pass. */
  function AddOrderAsWritten(r: Report, o: SalesOrder, dayAt: nat -> string): Option<Report>
    requires |r.hourlySales| == 24
  {
    AddOrder(r.(dailySales := ZeroDays(r.dailySales, dayAt, DayCount(r.daysDifference))), o)
  }

  /** The pass as written, resetting the daily table for every order. */
  function ProcessAsWritten(orders: seq<SalesOrder>, daysDifference: int, dayAt: nat -> string): (r: Option<Report>)
    ensures r.Some? ==> |r.value.hourlySales| == 24 && r.value.daysDifference == daysDifference
  {
    if orders == [] then Some(InitialReport(daysDifference))
    else
      var before := ProcessAsWritten(orders[..|orders| - 1], daysDifference, dayAt);
      if before.None? then None else AddOrderAsWritten(before.value, Last(orders), dayAt)
  }

  /** Once an order throws, the whole pass throws. */
  lemma {:induction false} ProcessFailureSticks(orders: seq<SalesOrder>, daysDifference: int, dayAt: nat -> string, n: nat)
    requires n <= |orders| && Process(orders[..n], daysDifference, dayAt).None?
    ensures Process(orders, daysDifference, dayAt).None?
    decreases |orders| - n
  {
    if n < |orders| {
      assert orders[..n + 1][..n] == orders[..n];
      ProcessFailureSticks(orders, daysDifference, dayAt, n + 1);
    } else {
      assert orders[..n] == orders;
    }
  }

  // ---------------------------------------------------------------------------
  // What the summary holds

  function TotalWhere(orders: seq<SalesOrder>, s: Status): int {
    if orders == [] then 0 else TotalWhere(orders[..|orders| - 1], s) + (if Last(orders).status == s then Last(orders).total else 0)
  }

  function CountWhere(orders: seq<SalesOrder>, s: Status): nat {
    if orders == [] then 0 else CountWhere(orders[..|orders| - 1], s) + (if Last(orders).status == s then 1 else 0)
  }

  function HourAmount(orders: seq<SalesOrder>, h: Hour): int {
    if orders == [] then 0 else HourAmount(orders[..|orders| - 1], h) + (if Last(orders).hour == h then Last(orders).total else 0)
  }

  function HourCount(orders: seq<SalesOrder>, h: Hour): nat {
    if orders == [] then 0 else HourCount(orders[..|orders| - 1], h) + (if Last(orders).hour == h then 1 else 0)
  }

  /** New and cancelled orders are totalled and counted by status; the "completed"
      figures are those of the new orders; the products sold are all products'
      quantities. */
  lemma {:induction false} ReportTotals(orders: seq<SalesOrder>, daysDifference: int, dayAt: nat -> string)
    requires Process(orders, daysDifference, dayAt).Some?
    ensures var r := Process(orders, daysDifference, dayAt).value;
            r.subTotalNew == TotalWhere(orders, New) && r.totalNumberOfOrdersNew == CountWhere(orders, New) &&
            r.subTotalCancelled == TotalWhere(orders, Cancelled) && r.totalNumberOfOrdersCancelled == CountWhere(orders, Cancelled) &&
            r.subTotalCompleted == r.subTotalNew && r.totalNumberOfOrdersCompleted == r.totalNumberOfOrdersNew &&
            r.numberOfProductsSold == SumQuantities(AllProducts(orders))
  {
    if orders != [] {
      var init := orders[..|orders| - 1];
      ReportTotals(init, daysDifference, dayAt);
      var before := Process(init, daysDifference, dayAt).value;
      assert Process(orders, daysDifference, dayAt) == AddOrder(before, Last(orders));
      AddOrderTotals(before, Last(orders));
      SumQuantitiesConcat(AllProducts(init), ProductsOf(Last(orders)));
    }
  }

  /** One order adds its total and a count to the figures of its status, and its quantities to the products sold. */
  lemma AddOrderTotals(r: Report, o: SalesOrder)
    requires |r.hourlySales| == 24 && AddOrder(r, o).Some?
    ensures var n := AddOrder(r, o).value;
            n.subTotalNew == r.subTotalNew + (if o.status == New then o.total else 0) &&
            n.totalNumberOfOrdersNew == r.totalNumberOfOrdersNew + (if o.status == New then 1 else 0) &&
            n.subTotalCancelled == r.subTotalCancelled + (if o.status == Cancelled then o.total else 0) &&
            n.totalNumberOfOrdersCancelled == r.totalNumberOfOrdersCancelled + (if o.status == Cancelled then 1 else 0) &&
            n.subTotalCompleted == r.subTotalCompleted + (if o.status == New then o.total else 0) &&
            n.totalNumberOfOrdersCompleted == r.totalNumberOfOrdersCompleted + (if o.status == New then 1 else 0) &&
            n.numberOfProductsSold == r.numberOfProductsSold + SumQuantities(ProductsOf(o))
  {
  }

  /** Hour h's entry counts and totals every order placed in hour h, whatever its status. */
  lemma {:induction false} ReportHours(orders: seq<SalesOrder>, daysDifference: int, dayAt: nat -> string)
    requires Process(orders, daysDifference, dayAt).Some?
    ensures forall h: Hour :: Process(orders, daysDifference, dayAt).value.hourlySales[h] ==
                              HourSales(h, HourAmount(orders, h), HourCount(orders, h))
  {
    if orders != [] {
      ReportHours(orders[..|orders| - 1], daysDifference, dayAt);
    }
  }

  /** With no negative order total, the best hour holds the largest hourly amount,
      and it is the amount of the hour it names. */
  lemma {:induction false} BestHourIsBusiest(orders: seq<SalesOrder>, daysDifference: int, dayAt: nat -> string)
    requires forall i :: 0 <= i < |orders| ==> orders[i].total >= 0
    requires Process(orders, daysDifference, dayAt).Some?
    ensures var r := Process(orders, daysDifference, dayAt).value;
            r.hourlySales[r.bestHour.hour].saleAmount == r.bestHour.saleAmount &&
            forall h: Hour :: r.hourlySales[h].saleAmount <= r.bestHour.saleAmount
  {
    if orders != [] {
      var init := orders[..|orders| - 1];
      assert forall i :: 0 <= i < |init| ==> init[i] == orders[i];
      BestHourIsBusiest(init, daysDifference, dayAt);
      assert Last(orders) == orders[|orders| - 1];
    }
  }

  /** The daily table holds exactly the days of the range. */
  lemma {:induction false} DailyKeys(orders: seq<SalesOrder>, daysDifference: int, dayAt: nat -> string, d: string)
    requires Process(orders, daysDifference, dayAt).Some?
    ensures d in Process(orders, daysDifference, dayAt).value.dailySales <==> InRange(d, dayAt, DayCount(daysDifference))
  {
    if orders == [] {
      ZeroDaysContents(map[], dayAt, DayCount(daysDifference), d);
    } else {
      DailyKeys(orders[..|orders| - 1], daysDifference, dayAt, d);
    }
  }

  /** The pass throws iff some new order falls on a day outside the range. */
  lemma {:induction false} ProcessThrowsIff(orders: seq<SalesOrder>, daysDifference: int, dayAt: nat -> string)
    ensures Process(orders, daysDifference, dayAt).None? <==>
              exists i :: 0 <= i < |orders| && orders[i].status == New && !InRange(orders[i].day, dayAt, DayCount(daysDifference))
  {
    if orders != [] {
      var init := orders[..|orders| - 1];
      var o := Last(orders);
      ProcessThrowsIff(init, daysDifference, dayAt);
      if Process(init, daysDifference, dayAt).Some? {
        DailyKeys(init, daysDifference, dayAt, o.day);
      }
      if exists i :: 0 <= i < |init| && init[i].status == New && !InRange(init[i].day, dayAt, DayCount(daysDifference)) {
        var i :| 0 <= i < |init| && init[i].status == New && !InRange(init[i].day, dayAt, DayCount(daysDifference));
        assert orders[i] == init[i];
      }
      if exists i :: 0 <= i < |orders| && orders[i].status == New && !InRange(orders[i].day, dayAt, DayCount(daysDifference)) {
        var i :| 0 <= i < |orders| && orders[i].status == New && !InRange(orders[i].day, dayAt, DayCount(daysDifference));
        if i < |init| {
          assert init[i] == orders[i];
        }
      }
    }
  }

  /** The new orders placed on day `d`, in order. */
  function NewOrdersOn(orders: seq<SalesOrder>, d: string): seq<SalesOrder> {
    if orders == [] then []
    else NewOrdersOn(orders[..|orders| - 1], d) + (if Last(orders).status == New && Last(orders).day == d then [Last(orders)] else [])
  }

  function TotalOf(orders: seq<SalesOrder>): int {
    if orders == [] then 0 else TotalOf(orders[..|orders| - 1]) + Last(orders).total
  }

  lemma {:induction false} TotalOfSnoc(orders: seq<SalesOrder>, o: SalesOrder)
    ensures TotalOf(orders + [o]) == TotalOf(orders) + o.total
  {
    assert (orders + [o])[..|orders + [o]| - 1] == orders;
  }

  /** One order changes only its own day's entry, and only when it is new. */
  lemma AddOrderDaily(r: Report, o: SalesOrder, d: string)
    requires |r.hourlySales| == 24 && AddOrder(r, o).Some? && d in r.dailySales
    ensures d in AddOrder(r, o).value.dailySales
    ensures AddOrder(r, o).value.dailySales[d] ==
              if o.status == New && o.day == d
              then DaySales(r.dailySales[d].subTotal + o.total, r.dailySales[d].quantitySold + 1, r.dailySales[d].orders + [o])
              else r.dailySales[d]
  {
  }

  /** Each day of the range lists the new orders placed on it, with their count
      and the sum of their totals. */
  lemma {:induction false} DailySalesAddUp(orders: seq<SalesOrder>, daysDifference: int, dayAt: nat -> string, d: string)
    requires Process(orders, daysDifference, dayAt).Some?
    requires InRange(d, dayAt, DayCount(daysDifference))
    ensures var ds := NewOrdersOn(orders, d);
            d in Process(orders, daysDifference, dayAt).value.dailySales &&
            Process(orders, daysDifference, dayAt).value.dailySales[d] == DaySales(TotalOf(ds), |ds|, ds)
  {
    if orders == [] {
      ZeroDaysContents(map[], dayAt, DayCount(daysDifference), d);
    } else {
      var init := orders[..|orders| - 1];
      var o := Last(orders);
      var before := Process(init, daysDifference, dayAt).value;
      DailySalesAddUp(init, daysDifference, dayAt, d);
      AddOrderDaily(before, o, d);
      var ds := NewOrdersOn(init, d);
      if o.status == New && o.day == d {
        assert NewOrdersOn(orders, d) == ds + [o];
        TotalOfSnoc(ds, o);
      } else {
        assert NewOrdersOn(orders, d) == ds + [];
        assert ds + [] == ds;
      }
    }
  }

  /** As written, the daily table is reset on every iteration, so in the end it
      shows only the last order, and only when that order is new. */
  lemma DailySalesShowLastOrder(orders: seq<SalesOrder>, daysDifference: int, dayAt: nat -> string, d: string)
    requires orders != [] && ProcessAsWritten(orders, daysDifference, dayAt).Some?
    requires InRange(d, dayAt, DayCount(daysDifference))
    ensures var o := Last(orders);
            d in ProcessAsWritten(orders, daysDifference, dayAt).value.dailySales &&
            ProcessAsWritten(orders, daysDifference, dayAt).value.dailySales[d] ==
              if o.status == New && o.day == d then DaySales(o.total, 1, [o]) else ZeroSales()
  {
    var before := ProcessAsWritten(orders[..|orders| - 1], daysDifference, dayAt).value;
    ZeroDaysContents(before.dailySales, dayAt, DayCount(daysDifference), d);
  }

  /** One iteration on two summaries that differ at most in their daily tables,
      and agree on whether the order's day is in them: both throw or neither
      does, and the results again differ at most in their daily tables. */
  lemma AddOrderSameElsewhere(r1: Report, r2: Report, o: SalesOrder)
    requires |r1.hourlySales| == 24 && |r2.hourlySales| == 24
    requires r1.(dailySales := map[]) == r2.(dailySales := map[])
    requires o.day in r1.dailySales <==> o.day in r2.dailySales
    ensures AddOrder(r1, o).None? <==> AddOrder(r2, o).None?
    ensures AddOrder(r1, o).Some? ==> AddOrder(r1, o).value.(dailySales := map[]) == AddOrder(r2, o).value.(dailySales := map[])
  {
    assert r1.hourlySales == r2.hourlySales && r1.bestHour == r2.bestHour;
  }

  /** An iteration that does not throw keeps the days of the daily table. */
  lemma AddOrderKeys(r: Report, o: SalesOrder, d: string)
    requires |r.hourlySales| == 24 && AddOrder(r, o).Some?
    ensures d in AddOrder(r, o).value.dailySales <==> d in r.dailySales
  {
  }

  /** The per-order reset changes nothing but the daily table: the pass as written
      throws exactly when the corrected pass throws, and otherwise every other
      figure (the totals, the counts, the hours, the best hour and both tables)
      is the same. The as-written daily table only ever holds days of the range. */
  lemma {:induction false} AsWrittenDiffersOnlyInDaily(orders: seq<SalesOrder>, daysDifference: int, dayAt: nat -> string)
    ensures ProcessAsWritten(orders, daysDifference, dayAt).None? <==> Process(orders, daysDifference, dayAt).None?
    ensures ProcessAsWritten(orders, daysDifference, dayAt).Some? ==>
              ProcessAsWritten(orders, daysDifference, dayAt).value.(dailySales := map[]) ==
              Process(orders, daysDifference, dayAt).value.(dailySales := map[])
    ensures ProcessAsWritten(orders, daysDifference, dayAt).Some? ==>
              forall d :: d in ProcessAsWritten(orders, daysDifference, dayAt).value.dailySales ==>
                InRange(d, dayAt, DayCount(daysDifference))
  {
    var n := DayCount(daysDifference);
    if orders != [] {
      var init := orders[..|orders| - 1];
      var o := Last(orders);
      AsWrittenDiffersOnlyInDaily(init, daysDifference, dayAt);
      if ProcessAsWritten(init, daysDifference, dayAt).Some? {
        var a := ProcessAsWritten(init, daysDifference, dayAt).value;
        var p := Process(init, daysDifference, dayAt).value;
        var reset := a.(dailySales := ZeroDays(a.dailySales, dayAt, n));
        ZeroDaysContents(a.dailySales, dayAt, n, o.day);
        DailyKeys(init, daysDifference, dayAt, o.day);
        AddOrderSameElsewhere(reset, p, o);
        if AddOrder(reset, o).Some? {
          forall d | d in AddOrder(reset, o).value.dailySales
            ensures InRange(d, dayAt, n)
          {
            AddOrderKeys(reset, o, d);
            ZeroDaysContents(a.dailySales, dayAt, n, d);
          }
        }
      }
    }
  }

  /** As written, the pass throws iff some new order falls on a day outside the range. */
  lemma AsWrittenThrowsIff(orders: seq<SalesOrder>, daysDifference: int, dayAt: nat -> string)
    ensures ProcessAsWritten(orders, daysDifference, dayAt).None? <==>
              exists i :: 0 <= i < |orders| && orders[i].status == New && !InRange(orders[i].day, dayAt, DayCount(daysDifference))
  {
    AsWrittenDiffersOnlyInDaily(orders, daysDifference, dayAt);
    ProcessThrowsIff(orders, daysDifference, dayAt);
  }

  /** As written, two new orders on the first day of a one-day range show as one
      order sold on that day: the reset keeps only the last. */
  lemma SameDayAsWritten(o1: SalesOrder, o2: SalesOrder, dayAt: nat -> string)
    requires o1.status == New && o2.status == New && o1.day == dayAt(0) && o2.day == dayAt(0)
    ensures ProcessAsWritten([o1, o2], 1, dayAt).Some?
    ensures ProcessAsWritten([o1, o2], 1, dayAt).value.dailySales[dayAt(0)].quantitySold == 1
  {
    assert InRange(dayAt(0), dayAt, DayCount(1));
    assert [o1, o2][..1] == [o1] && [o1][..0] == [];
    assert ProcessAsWritten([o1], 1, dayAt).Some?;
    DailySalesShowLastOrder([o1, o2], 1, dayAt, dayAt(0));
  }

  /** A pass whose new orders all fall in the range does not throw. */
  lemma InRangeDoesNotThrow(orders: seq<SalesOrder>, daysDifference: int, dayAt: nat -> string)
    requires forall i :: 0 <= i < |orders| && orders[i].status == New ==> InRange(orders[i].day, dayAt, DayCount(daysDifference))
    ensures Process(orders, daysDifference, dayAt).Some?
  {
    ProcessThrowsIff(orders, daysDifference, dayAt);
  }

  lemma NewOrdersOnPair(o1: SalesOrder, o2: SalesOrder, d: string)
    requires o1.status == New && o2.status == New && o1.day == d && o2.day == d
    ensures NewOrdersOn([o1, o2], d) == [o1, o2]
  {
    assert [o1, o2][..1] == [o1] && [o1][..0] == [];
    assert NewOrdersOn([o1], d) == [o1];
  }

  /** The corrected pass shows both orders sold on that day. */
  lemma SameDayCorrected(o1: SalesOrder, o2: SalesOrder, dayAt: nat -> string)
    requires o1.status == New && o2.status == New && o1.day == dayAt(0) && o2.day == dayAt(0)
    ensures Process([o1, o2], 1, dayAt).Some?
    ensures Process([o1, o2], 1, dayAt).value.dailySales[dayAt(0)].quantitySold == 2
  {
    var orders, d := [o1, o2], dayAt(0);
    assert InRange(d, dayAt, DayCount(1));
    assert forall i :: 0 <= i < |orders| ==> orders[i].day == d;
    InRangeDoesNotThrow(orders, 1, dayAt);
    DailySalesAddUp(orders, 1, dayAt, d);
    NewOrdersOnPair(o1, o2, d);
  }

  /** Two new orders on the first day of a one-day range: as written the day shows
      one order sold, the corrected pass shows both. */
  lemma SameDayOrdersCollapse(o1: SalesOrder, o2: SalesOrder, dayAt: nat -> string)
    requires o1.status == New && o2.status == New && o1.day == dayAt(0) && o2.day == dayAt(0)
    ensures ProcessAsWritten([o1, o2], 1, dayAt).Some? && Process([o1, o2], 1, dayAt).Some?
    ensures ProcessAsWritten([o1, o2], 1, dayAt).value.dailySales[dayAt(0)].quantitySold == 1
    ensures Process([o1, o2], 1, dayAt).value.dailySales[dayAt(0)].quantitySold == 2
  {
    SameDayAsWritten(o1, o2, dayAt);
    SameDayCorrected(o1, o2, dayAt);
  }

  /** Category and product sales are the sums over every product of every order. */
  lemma {:induction false} ReportTables(orders: seq<SalesOrder>, daysDifference: int, dayAt: nat -> string)
    requires Process(orders, daysDifference, dayAt).Some?
    ensures var r := Process(orders, daysDifference, dayAt).value;
            r.mostSoldCategories == AddCategories(map[], AllProducts(orders)) &&
            r.mostSoldProducts == AddProducts(map[], AllProducts(orders))
  {
    if orders != [] {
      var init := orders[..|orders| - 1];
      ReportTables(init, daysDifference, dayAt);
      AddCategoriesConcat(map[], AllProducts(init), ProductsOf(Last(orders)));
      AddProductsConcat(map[], AllProducts(init), ProductsOf(Last(orders)));
    }
  }

  // ---------------------------------------------------------------------------
  // The loops

  /** The loop that resets the daily table to every day of the range. */
  method ZeroDailySales(dailySales: map<string, DaySales>, daysDifference: int, dayAt: nat -> string)
    returns (reset: map<string, DaySales>)
    ensures reset == ZeroDays(dailySales, dayAt, DayCount(daysDifference))
  {
    reset := dailySales;
    var i := 0;
    while i < daysDifference
      invariant 0 <= i <= DayCount(daysDifference)
      invariant reset == ZeroDays(dailySales, dayAt, i)
    {
      reset := reset[dayAt(i) := DaySales(0, 0, [])];
      i := i + 1;
    }
  }

  /** The category loop of one order. */
  method AddCategorySales(mostSoldCategories: map<Id, CategorySales>, products: seq<SoldProduct>)
    returns (cats: map<Id, CategorySales>)
    ensures cats == AddCategories(mostSoldCategories, products)
  {
    cats := mostSoldCategories;
    var i := 0;
    while i < |products|
      invariant 0 <= i <= |products|
      invariant cats == AddCategories(mostSoldCategories, products[..i])
    {
      var product := products[i];
      assert products[..i + 1][..i] == products[..i];
      if product.category.Some? {
        var id := product.category.value.id;
        if id in cats {
          cats := cats[id := CategorySales(product.category.value, cats[id].quantity + product.quantity,
                                           cats[id].sales + product.price * product.quantity)];
        } else {
          cats := cats[id := CategorySales(product.category.value, product.quantity, product.price * product.quantity)];
        }
      }
      i := i + 1;
    }
    assert products[..i] == products;
  }

  /** The product loop of one order. */
  method AddProductSales(mostSoldProducts: map<Id, ProductSales>, numberOfProductsSold: int, products: seq<SoldProduct>)
    returns (prods: map<Id, ProductSales>, sold: int)
    ensures prods == AddProducts(mostSoldProducts, products)
    ensures sold == numberOfProductsSold + SumQuantities(products)
  {
    prods, sold := mostSoldProducts, numberOfProductsSold;
    var i := 0;
    while i < |products|
      invariant 0 <= i <= |products|
      invariant prods == AddProducts(mostSoldProducts, products[..i])
      invariant sold == numberOfProductsSold + SumQuantities(products[..i])
    {
      var product := products[i];
      assert products[..i + 1][..i] == products[..i];
      sold := sold + product.quantity;
      if product.id in prods {
        prods := prods[product.id := ProductSales(product, prods[product.id].quantity + product.quantity)];
      } else {
        prods := prods[product.id := ProductSales(product, product.quantity)];
      }
      i := i + 1;
    }
    assert products[..i] == products;
  }

  /** The body of the loop over the orders, for one order; None when it throws. */
  method AddOrderSales(report: Report, order: SalesOrder) returns (next: Option<Report>)
    requires |report.hourlySales| == 24
    ensures next == AddOrder(report, order)
  {
    var dailySales := report.dailySales;
    var subTotalNew, totalNumberOfOrdersNew := report.subTotalNew, report.totalNumberOfOrdersNew;
    var subTotalCancelled, totalNumberOfOrdersCancelled := report.subTotalCancelled, report.totalNumberOfOrdersCancelled;
    var subTotalCompleted, totalNumberOfOrdersCompleted := report.subTotalCompleted, report.totalNumberOfOrdersCompleted;
    if order.status == New {
      subTotalNew := subTotalNew + order.total;
      totalNumberOfOrdersNew := totalNumberOfOrdersNew + 1;
    }
    if order.status == Cancelled {
      subTotalCancelled := subTotalCancelled + order.total;
      totalNumberOfOrdersCancelled := totalNumberOfOrdersCancelled + 1;
    }
    if order.status == New {
      if order.day !in dailySales {
        return None;
      }
      var day := dailySales[order.day];
      subTotalCompleted := subTotalCompleted + order.total;
      totalNumberOfOrdersCompleted := totalNumberOfOrdersCompleted + 1;
      dailySales := dailySales[order.day := DaySales(day.subTotal + order.total, day.quantitySold + 1, day.orders + [order])];
    }
    var hourlySales := report.hourlySales;
    var newSaleQuantity := hourlySales[order.hour].saleQuantity + 1;
    var newSaleAmount := hourlySales[order.hour].saleAmount + order.total;
    hourlySales := hourlySales[order.hour := HourSales(order.hour, newSaleAmount, newSaleQuantity)];
    var bestHour := report.bestHour;
    if newSaleAmount > bestHour.saleAmount {
      bestHour := HourSales(order.hour, newSaleAmount, newSaleQuantity);
    }
    var products := if order.products.Some? then order.products.value else [];
    var cats := AddCategorySales(report.mostSoldCategories, products);
    var prods, sold := AddProductSales(report.mostSoldProducts, report.numberOfProductsSold, products);
    next := Some(Report(report.daysDifference, dailySales, subTotalNew, totalNumberOfOrdersNew, subTotalCancelled,
                        totalNumberOfOrdersCancelled, subTotalCompleted, totalNumberOfOrdersCompleted, sold,
                        hourlySales, bestHour, cats, prods));
  }

  /** processSalesData: nothing without both dates and the orders; otherwise the
      summary of the pass, unless a new order's day is missing from the table. */
  method ProcessSalesData(startDate: Option<string>, endDate: Option<string>, orders: Option<seq<SalesOrder>>,
                          daysDifference: int, dayAt: nat -> string) returns (outcome: SalesOutcome)
    ensures !Truthy(startDate) || !Truthy(endDate) || orders.None? ==> outcome == NotProcessed
    ensures Truthy(startDate) && Truthy(endDate) && orders.Some? ==>
              outcome == match Process(orders.value, daysDifference, dayAt)
                         case Some(r) => Processed(r)
                         case None => Threw
  {
    if !Truthy(startDate) || !Truthy(endDate) {
      return NotProcessed;
    }
    if orders.None? {
      return NotProcessed;
    }
    var os := orders.value;
    var dailySales := ZeroDailySales(map[], daysDifference, dayAt);
    var report := InitialReport(daysDifference).(dailySales := dailySales);
    var i := 0;
    while i < |os|
      invariant 0 <= i <= |os|
      invariant Process(os[..i], daysDifference, dayAt) == Some(report)
    {
      assert os[..i + 1][..i] == os[..i];
      var next := AddOrderSales(report, os[i]);
      if next.None? {
        ProcessFailureSticks(os, daysDifference, dayAt, i + 1);
        return Threw;
      }
      report := next.value;
      i := i + 1;
    }
    assert os[..i] == os;
    return Processed(report);
  }
}
