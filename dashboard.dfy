/**
 * The administrator dashboard (src/controllers/adminDashboardController.ts):
 * read-only aggregations over the orders, the users and the catalog. Each
 * aggregation pipeline is a fold: `$group` is Grouping.GroupBy, `$sort` is
 * Sorting.Sort and `$sort` + `$limit` is Sorting.Top.
 */
module Dashboard {
  import opened Common
  import opened Sorting
  import opened Grouping
  import opened OrderModel
  import opened ProductModel
  import Orders

  /** What the dashboard reads of a user: the id and the role, if any. */
  datatype UserRecord = UserRecord(id: UserId, role: Option<Role>)

  // ---------------------------------------------------------------------------
  // Weights and keys the pipelines group on.

  function OrderTotal(o: Order): int { o.total }
  function OrderSubtotal(o: Order): int { o.subtotal }
  function One<T>(x: T): int { 1 }
  function StatusKey(o: Order): Status { o.status }
  function ItemProduct(it: OrderItem): ProductId { it.product }
  function ItemQuantity(it: OrderItem): int { it.quantity }

  // ---------------------------------------------------------------------------
  // getDashboardStats

  /** `$group: { _id: null, totalRevenue: { $sum: "$total" } }`, then `?.totalRevenue || 0`. */
  function TotalRevenue(orders: seq<Order>): (r: int)
    ensures orders == [] ==> r == 0
    ensures |orders| == 1 ==> r == orders[0].total
  {
    assert |orders| == 1 ==> Sum(orders, OrderTotal) == Sum(orders[..0], OrderTotal) + orders[0].total;
    Sum(orders, OrderTotal)
  }

  /** Revenue is additive over the orders. */
  lemma TotalRevenueAppend(a: seq<Order>, b: seq<Order>)
    ensures TotalRevenue(a + b) == TotalRevenue(a) + TotalRevenue(b)
  {
    SumAppend(a, b, OrderTotal);
  }

  /** Over orders placed by checkout, revenue is the sum of the subtotals plus one shipping
      fee per order. */
  lemma {:induction false} RevenueOfPricedOrders(orders: seq<Order>)
    requires forall i :: 0 <= i < |orders| ==> Priced(orders[i])
    ensures TotalRevenue(orders) == Sum(orders, OrderSubtotal) + ShippingFee * |orders|
  {
    if orders != [] {
      RevenueOfPricedOrders(orders[..|orders| - 1]);
    }
  }

  /** `User.countDocuments({ role: { $ne: "admin" } })`: users without the admin role,
      including those with no role at all. */
  function CountCustomers(users: seq<UserRecord>): (r: nat)
    ensures r <= |users|
    ensures |users| == 1 ==> (r == 1 <==> users[0].role != Some(Admin))
    ensures r == |users| <==> forall i :: 0 <= i < |users| ==> users[i].role != Some(Admin)
    ensures r == 0 <==> forall i :: 0 <= i < |users| ==> users[i].role == Some(Admin)
  {
    if users == [] then 0
    else
      var n := |users| - 1;
      var rest := CountCustomers(users[..n]);
      assert forall i :: 0 <= i < n ==> users[..n][i] == users[i];
      rest + (if users[n].role != Some(Admin) then 1 else 0)
  }

  /** The count is additive: the customers of two lists of users are those of each. */
  lemma {:induction false} CountCustomersAppend(a: seq<UserRecord>, b: seq<UserRecord>)
    ensures CountCustomers(a + b) == CountCustomers(a) + CountCustomers(b)
  {
    if b != [] {
      var n := |b| - 1;
      assert (a + b)[..|a + b| - 1] == a + b[..n];
      CountCustomersAppend(a, b[..n]);
    } else {
      assert a + b == a;
    }
  }

  datatype Stats = Stats(totalRevenue: int, totalOrders: nat, totalCustomers: nat)

  /** `getDashboardStats`, without the hard-coded growth figures. */
  function DashboardStats(orders: seq<Order>, users: seq<UserRecord>): (r: Stats)
    ensures r.totalOrders == |orders|
    ensures r.totalRevenue == TotalRevenue(orders) && r.totalCustomers == CountCustomers(users)
    ensures (forall i :: 0 <= i < |orders| ==> Priced(orders[i])) ==>
      r.totalRevenue == Sum(orders, OrderSubtotal) + ShippingFee * |orders|
  {
    assert (forall i :: 0 <= i < |orders| ==> Priced(orders[i])) ==>
      TotalRevenue(orders) == Sum(orders, OrderSubtotal) + ShippingFee * |orders| by {
      if forall i :: 0 <= i < |orders| ==> Priced(orders[i]) {
        RevenueOfPricedOrders(orders);
      }
    }
    Stats(TotalRevenue(orders), |orders|, CountCustomers(users))
  }

  // ---------------------------------------------------------------------------
  // getRevenueData

  /** A calendar month. The year and month of a clock reading come from a calendar
      the caller supplies (`$year`, `$month`). */
  datatype YearMonth = YearMonth(year: int, month: int)

  /** One row of the revenue chart: its period, the month's short name, the revenue and
      the number of orders. */
  datatype MonthlyRevenue = MonthlyRevenue(period: YearMonth, month: string, revenue: int, orders: int)

  /** The `$switch` of the `$project` stage. */
  function MonthName(m: int): (r: string)
    ensures 1 <= m <= 12 ==>
      r == ["Jan", "Feb", "Mar", "Apr", "May", "Jun", "Jul", "Aug", "Sep", "Oct", "Nov", "Dec"][m - 1]
    ensures r == "Unknown" <==> !(1 <= m <= 12)
    ensures r != "Unknown" ==> |r| == 3
  {
    if m == 1 then "Jan" else if m == 2 then "Feb" else if m == 3 then "Mar"
    else if m == 4 then "Apr" else if m == 5 then "May" else if m == 6 then "Jun"
    else if m == 7 then "Jul" else if m == 8 then "Aug" else if m == 9 then "Sep"
    else if m == 10 then "Oct" else if m == 11 then "Nov" else if m == 12 then "Dec"
    else "Unknown"
  }

  /** Different months have different names. */
  lemma MonthNamesDistinct(a: int, b: int)
    requires 1 <= a <= 12 && 1 <= b <= 12 && a != b
    ensures MonthName(a) != MonthName(b)
  {
  }

  /** The grouping key: the period of the order's creation time. */
  function PeriodKey(calendar: nat -> YearMonth): Order -> YearMonth
  {
    (o: Order) => calendar(o.createdAt)
  }

  /** `$sort: { "_id.year": 1, "_id.month": 1 }`. */
  predicate Chronological(a: Group<YearMonth>, b: Group<YearMonth>)
  {
    a.key.year < b.key.year || (a.key.year == b.key.year && a.key.month <= b.key.month)
  }

  lemma ChronologicalIsTotal()
    ensures TotalPreorder(Chronological)
  {
  }

  /** Strictly earlier in (year, month) order. */
  predicate Earlier(a: YearMonth, b: YearMonth)
  {
    a.year < b.year || (a.year == b.year && a.month < b.month)
  }

  function ToMonthly(g: Group<YearMonth>): MonthlyRevenue
  {
    MonthlyRevenue(g.key, MonthName(g.key.month), g.first, g.second)
  }

  function Revenue(m: MonthlyRevenue): int { m.revenue }

  /** The `$group` and `$sort` stages of `getRevenueData`: one bucket per period, summing
      the order totals (`first`) and counting the orders (`second`), in period order. */
  function PeriodBuckets(orders: seq<Order>, calendar: nat -> YearMonth): seq<Group<YearMonth>>
  {
    ChronologicalIsTotal();
    Sort(GroupBy(orders, PeriodKey(calendar), OrderTotal, One), Chronological)
  }

  /** `getRevenueData`: the period buckets, each with its month's name. */
  function RevenueByMonth(orders: seq<Order>, calendar: nat -> YearMonth): (r: seq<MonthlyRevenue>)
    ensures |r| <= |orders| && (orders == [] <==> r == [])
    ensures forall i :: 0 <= i < |r| ==> r[i].month == MonthName(r[i].period.month)
  {
    GroupBySize(orders, PeriodKey(calendar), OrderTotal, One);
    ChronologicalIsTotal();
    var groups := GroupBy(orders, PeriodKey(calendar), OrderTotal, One);
    assert |multiset(PeriodBuckets(orders, calendar))| == |multiset(groups)|;
    MapSeq(PeriodBuckets(orders, calendar), ToMonthly)
  }

  /** The period buckets are the periods of the orders, each once, strictly increasing,
      each with the sums of its orders. */
  lemma PeriodBucketsCorrect(orders: seq<Order>, calendar: nat -> YearMonth)
    ensures var b := PeriodBuckets(orders, calendar);
      && (forall i, j :: 0 <= i < j < |b| ==> Earlier(b[i].key, b[j].key))
      && (forall k :: 0 <= k < |orders| ==> exists i :: 0 <= i < |b| && b[i].key == calendar(orders[k].createdAt))
      && (forall i :: 0 <= i < |b| ==> Bucket(b[i], orders, PeriodKey(calendar), OrderTotal, One))
  {
    ChronologicalIsTotal();
    var key := PeriodKey(calendar);
    var groups := GroupBy(orders, key, OrderTotal, One);
    var b := PeriodBuckets(orders, calendar);
    GroupByCorrect(orders, key, OrderTotal, One);
    BucketsPermuted(groups, b, orders, key, OrderTotal, One);
    forall k | 0 <= k < |orders| ensures exists i :: 0 <= i < |b| && b[i].key == calendar(orders[k].createdAt) {
      assert key(orders[k]) == calendar(orders[k].createdAt);
    }
  }

  /** The revenue chart is strictly chronological, so no period has two rows. */
  lemma RevenueByMonthChronological(orders: seq<Order>, calendar: nat -> YearMonth)
    ensures var r := RevenueByMonth(orders, calendar);
      forall i, j :: 0 <= i < j < |r| ==> Earlier(r[i].period, r[j].period)
  {
    var b := PeriodBuckets(orders, calendar);
    var r := RevenueByMonth(orders, calendar);
    PeriodBucketsCorrect(orders, calendar);
    forall i, j | 0 <= i < j < |r| ensures Earlier(r[i].period, r[j].period) {
      assert r[i] == ToMonthly(b[i]) && r[j] == ToMonthly(b[j]);
    }
  }

  /** Every period in which an order was created has a row. */
  lemma RevenueByMonthCovers(orders: seq<Order>, calendar: nat -> YearMonth)
    ensures var r := RevenueByMonth(orders, calendar);
      forall k :: 0 <= k < |orders| ==> exists i :: 0 <= i < |r| && r[i].period == calendar(orders[k].createdAt)
  {
    var b := PeriodBuckets(orders, calendar);
    var r := RevenueByMonth(orders, calendar);
    PeriodBucketsCorrect(orders, calendar);
    forall k | 0 <= k < |orders| ensures exists i :: 0 <= i < |r| && r[i].period == calendar(orders[k].createdAt) {
      var i :| 0 <= i < |b| && b[i].key == calendar(orders[k].createdAt);
      assert r[i] == ToMonthly(b[i]);
    }
  }

  /** Every row is a period in which some order was created, with the revenue and the number
      of that period's orders and the name of its month. */
  lemma RevenueByMonthRows(orders: seq<Order>, calendar: nat -> YearMonth)
    ensures var r := RevenueByMonth(orders, calendar);
      forall i :: 0 <= i < |r| ==>
        && (exists k :: 0 <= k < |orders| && calendar(orders[k].createdAt) == r[i].period)
        && r[i].revenue == SumWhere(orders, PeriodKey(calendar), r[i].period, OrderTotal)
        && r[i].orders == SumWhere(orders, PeriodKey(calendar), r[i].period, One)
        && r[i].month == MonthName(r[i].period.month)
  {
    var b := PeriodBuckets(orders, calendar);
    PeriodBucketsCorrect(orders, calendar);
    MonthlyRows(orders, calendar, b, RevenueByMonth(orders, calendar));
  }

  /** The rows made from correct period buckets, with the stages as plain values. */
  lemma MonthlyRows(orders: seq<Order>, calendar: nat -> YearMonth, b: seq<Group<YearMonth>>, r: seq<MonthlyRevenue>)
    requires forall i :: 0 <= i < |b| ==> Bucket(b[i], orders, PeriodKey(calendar), OrderTotal, One)
    requires |r| == |b| && forall i :: 0 <= i < |b| ==> r[i] == ToMonthly(b[i])
    ensures forall i :: 0 <= i < |r| ==>
      && (exists k :: 0 <= k < |orders| && calendar(orders[k].createdAt) == r[i].period)
      && r[i].revenue == SumWhere(orders, PeriodKey(calendar), r[i].period, OrderTotal)
      && r[i].orders == SumWhere(orders, PeriodKey(calendar), r[i].period, One)
      && r[i].month == MonthName(r[i].period.month)
  {
    forall i | 0 <= i < |r|
      ensures exists k :: 0 <= k < |orders| && calendar(orders[k].createdAt) == r[i].period
    {
      assert Bucket(b[i], orders, PeriodKey(calendar), OrderTotal, One);
      var k :| 0 <= k < |orders| && PeriodKey(calendar)(orders[k]) == b[i].key;
    }
  }

  /** The revenue chart accounts for all revenue: its rows add up to the total revenue. */
  lemma RevenueByMonthTotal(orders: seq<Order>, calendar: nat -> YearMonth)
    ensures Sum(RevenueByMonth(orders, calendar), Revenue) == TotalRevenue(orders)
  {
    ChronologicalIsTotal();
    var key := PeriodKey(calendar);
    var groups := GroupBy(orders, key, OrderTotal, One);
    var b := PeriodBuckets(orders, calendar);
    SumMap(b, ToMonthly, Revenue, First);
    SumPermutation(b, groups, First);
    GroupByTotal(orders, key, OrderTotal, One);
  }

  // ---------------------------------------------------------------------------
  // getTopProducts

  /** One row of the best-seller list. */
  datatype TopProduct = TopProduct(product: ProductId, name: string, sales: int, revenue: int)

  /** `$unwind: "$items"`: every item of every order, order by order. */
  function Flatten(orders: seq<Order>): (r: seq<OrderItem>)
    ensures forall it :: it in r <==> exists k :: 0 <= k < |orders| && it in orders[k].items
    ensures orders != [] ==> r == Flatten(orders[..|orders| - 1]) + orders[|orders| - 1].items
  {
    if orders == [] then []
    else
      var n := |orders| - 1;
      var rest := Flatten(orders[..n]);
      assert forall k :: 0 <= k < n ==> orders[..n][k] == orders[k];
      rest + orders[n].items
  }

  /** Unwinding keeps every line, repeats included: the items of two lists of orders are
      those of the first followed by those of the second. */
  lemma {:induction false} FlattenAppend(a: seq<Order>, b: seq<Order>)
    ensures Flatten(a + b) == Flatten(a) + Flatten(b)
  {
    if b != [] {
      var n := |b| - 1;
      assert (a + b)[..|a + b| - 1] == a + b[..n];
      FlattenAppend(a, b[..n]);
    } else {
      assert a + b == a;
    }
  }

  /** `$lookup` then `$unwind: "$product"`: drops the buckets of products no longer in the catalog. */
  function Known(groups: seq<Group<ProductId>>, catalog: map<ProductId, Product>): (r: seq<Group<ProductId>>)
    ensures forall g :: multiset(r)[g] == if g.key in catalog then multiset(groups)[g] else 0
  {
    if groups == [] then []
    else
      assert groups == [groups[0]] + groups[1..];
      (if groups[0].key in catalog then [groups[0]] else []) + Known(groups[1..], catalog)
  }

  /** `$sort: { revenue: -1 }`. */
  predicate MoreRevenue(a: Group<ProductId>, b: Group<ProductId>)
  {
    a.second >= b.second
  }

  lemma MoreRevenueIsTotal()
    ensures TotalPreorder(MoreRevenue)
  {
  }

  /** `$project`: the product's name from the catalog, with the two sums. */
  function Entry(catalog: map<ProductId, Product>): Group<ProductId> -> TopProduct
  {
    (g: Group<ProductId>) =>
      TopProduct(g.key, if g.key in catalog then catalog[g.key].name else "", g.first, g.second)
  }

  /** The `$limit` of the best-seller list. */
  const TopProductsLimit: nat := 10

  /** The `$group`, `$lookup`, `$sort` and `$limit` stages of `getTopProducts`: buckets of
      catalog products summing units sold (`first`) and revenue (`second`), by revenue
      descending, at most ten. */
  function TopBuckets(orders: seq<Order>, catalog: map<ProductId, Product>): seq<Group<ProductId>>
  {
    MoreRevenueIsTotal();
    var groups := GroupBy(Flatten(orders), ItemProduct, ItemQuantity, LineTotal);
    Top(Known(groups, catalog), MoreRevenue, TopProductsLimit)
  }

  /** `getTopProducts`: the top buckets, each with its product's name. */
  function TopProducts(orders: seq<Order>, catalog: map<ProductId, Product>): (r: seq<TopProduct>)
    ensures |r| <= TopProductsLimit
    ensures forall i :: 0 <= i < |r| ==> r[i].product in catalog && r[i].name == catalog[r[i].product].name
  {
    TopBucketsRanked(orders, catalog);
    MapSeq(TopBuckets(orders, catalog), Entry(catalog))
  }

  /** The top buckets are distinct catalog products by revenue descending, each with the
      sums of its items. */
  lemma TopBucketsRanked(orders: seq<Order>, catalog: map<ProductId, Product>)
    ensures var b := TopBuckets(orders, catalog);
      && |b| <= TopProductsLimit
      && DistinctKeys(b)
      && (forall i, j :: 0 <= i < j < |b| ==> b[i].second >= b[j].second)
      && (forall i :: 0 <= i < |b| ==>
            b[i].key in catalog && Bucket(b[i], Flatten(orders), ItemProduct, ItemQuantity, LineTotal))
  {
    MoreRevenueIsTotal();
    var items := Flatten(orders);
    var groups := GroupBy(items, ItemProduct, ItemQuantity, LineTotal);
    GroupByCorrect(items, ItemProduct, ItemQuantity, LineTotal);
    TopOfKnownRanked(items, groups, Known(groups, catalog), catalog);
  }

  /** `TopBucketsRanked` over the grouped items, with the stages as plain values. */
  lemma TopOfKnownRanked(items: seq<OrderItem>, groups: seq<Group<ProductId>>,
                         known: seq<Group<ProductId>>, catalog: map<ProductId, Product>)
    requires Buckets(groups, items, ItemProduct, ItemQuantity, LineTotal)
    requires forall g :: multiset(known)[g] == if g.key in catalog then multiset(groups)[g] else 0
    ensures var b := Top(known, MoreRevenue, TopProductsLimit);
      && |b| <= TopProductsLimit
      && DistinctKeys(b)
      && (forall i, j :: 0 <= i < j < |b| ==> b[i].second >= b[j].second)
      && (forall i :: 0 <= i < |b| ==>
            b[i].key in catalog && Bucket(b[i], items, ItemProduct, ItemQuantity, LineTotal))
  {
    MoreRevenueIsTotal();
    var b := Top(known, MoreRevenue, TopProductsLimit);
    KnownSelection(groups, known, catalog, b);
    BucketsSelect(groups, b, items, ItemProduct, ItemQuantity, LineTotal);
  }

  /** Whatever is drawn from the looked-up buckets is drawn from all buckets and names
      catalog products only. */
  lemma KnownSelection(groups: seq<Group<ProductId>>, known: seq<Group<ProductId>>,
                       catalog: map<ProductId, Product>, b: seq<Group<ProductId>>)
    requires forall g :: multiset(known)[g] == if g.key in catalog then multiset(groups)[g] else 0
    requires multiset(b) <= multiset(known)
    ensures multiset(b) <= multiset(groups)
    ensures forall i :: 0 <= i < |b| ==> b[i].key in catalog
  {
    assert multiset(known) <= multiset(groups);
    forall i | 0 <= i < |b| ensures b[i].key in catalog {
      assert b[i] in multiset(b);
      assert b[i] in multiset(known);
    }
  }

  /** A sold catalog product is missing from the top buckets only when ten buckets that
      earned at least as much fill them. */
  lemma TopBucketsComplete(orders: seq<Order>, catalog: map<ProductId, Product>, k: nat)
    requires k < |Flatten(orders)| && Flatten(orders)[k].product in catalog
    requires forall i :: 0 <= i < |TopBuckets(orders, catalog)| ==>
      TopBuckets(orders, catalog)[i].key != Flatten(orders)[k].product
    ensures var b := TopBuckets(orders, catalog);
      && |b| == TopProductsLimit
      && forall i :: 0 <= i < |b| ==> b[i].second >= SumWhere(Flatten(orders), ItemProduct, Flatten(orders)[k].product, LineTotal)
  {
    MoreRevenueIsTotal();
    var items := Flatten(orders);
    var groups := GroupBy(items, ItemProduct, ItemQuantity, LineTotal);
    var known := Known(groups, catalog);
    assert TopBuckets(orders, catalog) == Top(known, MoreRevenue, TopProductsLimit);
    var g := BucketOf(items, k);
    TopOfKnownComplete(groups, known, catalog, g);
  }

  /** The bucket that `$group` makes for the product of item `k`, with its revenue. */
  lemma BucketOf(items: seq<OrderItem>, k: nat) returns (g: Group<ProductId>)
    requires k < |items|
    ensures g in multiset(GroupBy(items, ItemProduct, ItemQuantity, LineTotal))
    ensures g.key == items[k].product
    ensures g.second == SumWhere(items, ItemProduct, items[k].product, LineTotal)
  {
    var groups := GroupBy(items, ItemProduct, ItemQuantity, LineTotal);
    GroupByCorrect(items, ItemProduct, ItemQuantity, LineTotal);
    var m :| 0 <= m < |groups| && groups[m].key == ItemProduct(items[k]);
    g := groups[m];
    assert g in multiset(groups);
  }

  /** A looked-up bucket that `$limit` leaves out means the list is full of buckets that
      earned at least as much. */
  lemma TopOfKnownComplete(groups: seq<Group<ProductId>>, known: seq<Group<ProductId>>,
                           catalog: map<ProductId, Product>, g: Group<ProductId>)
    requires forall h :: multiset(known)[h] == if h.key in catalog then multiset(groups)[h] else 0
    requires g in multiset(groups) && g.key in catalog
    requires forall i :: 0 <= i < |Top(known, MoreRevenue, TopProductsLimit)| ==>
      Top(known, MoreRevenue, TopProductsLimit)[i].key != g.key
    ensures var b := Top(known, MoreRevenue, TopProductsLimit);
      && |b| == TopProductsLimit
      && forall i :: 0 <= i < |b| ==> b[i].second >= g.second
  {
    MoreRevenueIsTotal();
    var b := Top(known, MoreRevenue, TopProductsLimit);
    assert g in multiset(known);
    assert forall i :: 0 <= i < |b| ==> b[i] != g;
    assert g !in multiset(b);
    TopExcluded(known, MoreRevenue, TopProductsLimit, g);
    forall i | 0 <= i < |b| ensures b[i].second >= g.second {
      assert MoreRevenue(b[i], g);
    }
  }

  /** The best-seller list: distinct catalog products, by revenue descending, each with its
      name, units sold and revenue over all order items. */
  lemma TopProductsRanked(orders: seq<Order>, catalog: map<ProductId, Product>)
    ensures var r := TopProducts(orders, catalog);
      var items := Flatten(orders);
      && |r| <= TopProductsLimit
      && (forall i, j :: 0 <= i < j < |r| ==> r[i].revenue >= r[j].revenue && r[i].product != r[j].product)
      && (forall i :: 0 <= i < |r| ==>
            && r[i].product in catalog && r[i].name == catalog[r[i].product].name
            && r[i].sales == SumWhere(items, ItemProduct, r[i].product, ItemQuantity)
            && r[i].revenue == SumWhere(items, ItemProduct, r[i].product, LineTotal))
  {
    var b := TopBuckets(orders, catalog);
    var r := TopProducts(orders, catalog);
    TopBucketsRanked(orders, catalog);
    forall i, j | 0 <= i < j < |r| ensures r[i].revenue >= r[j].revenue && r[i].product != r[j].product {
      assert r[i] == Entry(catalog)(b[i]) && r[j] == Entry(catalog)(b[j]);
    }
    forall i | 0 <= i < |r|
      ensures r[i].product in catalog && r[i].name == catalog[r[i].product].name
      ensures r[i].sales == SumWhere(Flatten(orders), ItemProduct, r[i].product, ItemQuantity)
      ensures r[i].revenue == SumWhere(Flatten(orders), ItemProduct, r[i].product, LineTotal)
    {
      assert r[i] == Entry(catalog)(b[i]);
      assert Bucket(b[i], Flatten(orders), ItemProduct, ItemQuantity, LineTotal);
    }
  }

  /** A sold catalog product is left off the best-seller list only when the list is full and
      every listed product earned at least as much. */
  lemma TopProductsComplete(orders: seq<Order>, catalog: map<ProductId, Product>, it: OrderItem)
    requires it in Flatten(orders) && it.product in catalog
    requires forall i :: 0 <= i < |TopProducts(orders, catalog)| ==> TopProducts(orders, catalog)[i].product != it.product
    ensures var r := TopProducts(orders, catalog);
      && |r| == TopProductsLimit
      && forall i :: 0 <= i < |r| ==> r[i].revenue >= SumWhere(Flatten(orders), ItemProduct, it.product, LineTotal)
  {
    var items := Flatten(orders);
    var b := TopBuckets(orders, catalog);
    var r := TopProducts(orders, catalog);
    assert forall i :: 0 <= i < |r| ==> r[i] == Entry(catalog)(b[i]);
    var k :| 0 <= k < |items| && items[k] == it;
    TopBucketsComplete(orders, catalog, k);
  }

  // ---------------------------------------------------------------------------
  // getRecentOrders

  /** One row of the recent-orders list. */
  datatype RecentOrder = RecentOrder(id: OrderId, userId: UserId, items: seq<OrderItem>, total: int,
                                     status: Status, createdAt: nat)

  /** `order.total || Σ price × quantity`: the stored total unless it is 0, in which case the
      subtotal recomputed from the items. */
  function DisplayTotal(o: Order): (r: int)
    ensures o.total != 0 ==> r == o.total
    ensures o.total == 0 ==> r == Subtotal(o.items)
    ensures r == 0 <==> o.total == 0 && Subtotal(o.items) == 0
  {
    if o.total != 0 then o.total else Subtotal(o.items)
  }

  /** For an order checkout priced, the displayed total is the stored total, never the
      recomputed subtotal. */
  lemma DisplayTotalOfPricedOrder(o: Order)
    requires Priced(o) && forall i :: 0 <= i < |o.items| ==> o.items[i].price >= 0 && o.items[i].quantity >= 0
    ensures DisplayTotal(o) == o.total == Subtotal(o.items) + ShippingFee
  {
    SubtotalNonNegative(o.items);
  }

  function Recent(o: Order): RecentOrder
  {
    RecentOrder(o.id, o.userId, o.items, DisplayTotal(o), o.status, o.createdAt)
  }

  /** The `limit` of the recent-orders list. */
  const RecentOrdersLimit: nat := 10

  /** `getRecentOrders`: the ten newest orders, newest first, each with its display total. */
  function RecentOrders(orders: seq<Order>): (r: seq<RecentOrder>)
    ensures |r| == Min(RecentOrdersLimit, |orders|)
    ensures forall i, j :: 0 <= i < j < |r| ==> r[i].createdAt >= r[j].createdAt
    ensures forall i :: 0 <= i < |r| ==> exists o :: o in orders && r[i] == Recent(o)
    ensures multiset(r) <= multiset(MapSeq(orders, Recent))
    ensures forall o :: o in orders && Recent(o) !in r ==>
      forall i :: 0 <= i < |r| ==> r[i].createdAt >= o.createdAt
  {
    Orders.NewestFirstIsTotal();
    var top := Top(orders, Orders.NewestFirst, RecentOrdersLimit);
    var r := MapSeq(top, Recent);
    RecentRows(orders, top, r);
    MapMultiset(top, orders, Recent);
    r
  }

  /** The rows shown are views of stored orders, and any order not shown is no newer than
      the rows, given that `top` is drawn from `orders` ahead of what it leaves out. */
  lemma RecentRows(orders: seq<Order>, top: seq<Order>, r: seq<RecentOrder>)
    requires multiset(top) <= multiset(orders)
    requires forall x, y :: x in multiset(orders) - multiset(top) && y in top ==> Orders.NewestFirst(y, x)
    requires |r| == |top| && forall i :: 0 <= i < |top| ==> r[i] == Recent(top[i])
    ensures forall i :: 0 <= i < |r| ==> exists o :: o in orders && r[i] == Recent(o)
    ensures forall o :: o in orders && Recent(o) !in r ==>
      forall i :: 0 <= i < |r| ==> r[i].createdAt >= o.createdAt
  {
    forall i | 0 <= i < |r| ensures exists o :: o in orders && r[i] == Recent(o) {
      assert top[i] in multiset(top);
    }
    forall o | o in orders && Recent(o) !in r ensures forall i :: 0 <= i < |r| ==> r[i].createdAt >= o.createdAt {
      assert o !in top;
      assert o in multiset(orders) - multiset(top);
      forall i | 0 <= i < |r| ensures r[i].createdAt >= o.createdAt {
        assert Orders.NewestFirst(top[i], o);
      }
    }
  }

  /** Mapping preserves sub-multisets: the image of a part of `s` is a part of the image of `s`. */
  lemma {:induction false} MapMultiset<A, B>(t: seq<A>, s: seq<A>, f: A -> B)
    requires multiset(t) <= multiset(s)
    ensures multiset(MapSeq(t, f)) <= multiset(MapSeq(s, f))
  {
    if t != [] {
      var x := t[|t| - 1];
      var t' := t[..|t| - 1];
      assert x in multiset(s) by { assert t == t' + [x]; }
      var i :| 0 <= i < |s| && s[i] == x;
      var s' := s[..i] + s[i + 1..];
      SubMultisetSplice(t, s, i);
      MapMultiset(t', s', f);
      MapSpliceMultiset(s, i, f);
      MapSpliceMultiset(t, |t| - 1, f);
      assert t[..|t| - 1] + t[|t|..] == t';
    }
  }

  /** Taking the last element off `t` and one copy of it off `s` keeps `t` inside `s`. */
  lemma SubMultisetSplice<A>(t: seq<A>, s: seq<A>, i: nat)
    requires t != [] && i < |s| && s[i] == t[|t| - 1]
    requires multiset(t) <= multiset(s)
    ensures multiset(t[..|t| - 1]) <= multiset(s[..i] + s[i + 1..])
  {
    var t' := t[..|t| - 1];
    var s' := s[..i] + s[i + 1..];
    assert t == t' + [s[i]];
    SpliceMultiset(s, i);
    forall y ensures multiset(t')[y] <= multiset(s')[y] {
      assert multiset(t)[y] <= multiset(s)[y];
    }
  }

  /** Mapping commutes with `splice(i, 1)`, counted as multisets. */
  lemma MapSpliceMultiset<A, B>(s: seq<A>, i: nat, f: A -> B)
    requires i < |s|
    ensures multiset(MapSeq(s, f)) == multiset(MapSeq(s[..i] + s[i + 1..], f)) + multiset{f(s[i])}
  {
    var m := MapSeq(s, f);
    SpliceMultiset(m, i);
    assert m[..i] + m[i + 1..] == MapSeq(s[..i] + s[i + 1..], f);
  }

  // ---------------------------------------------------------------------------
  // getAnalytics

  /** One bucket of the status breakdown. */
  datatype StatusCount = StatusCount(status: Status, count: int)

  function ToStatusCount(g: Group<Status>): StatusCount { StatusCount(g.key, g.first) }
  function Count(c: StatusCount): int { c.count }

  /** `$group: { _id: "$status", count: { $sum: 1 } }`. */
  function OrdersByStatus(orders: seq<Order>): (r: seq<StatusCount>)
    ensures |r| <= |orders| && (orders == [] <==> r == [])
  {
    GroupBySize(orders, StatusKey, One, One);
    MapSeq(GroupBy(orders, StatusKey, One, One), ToStatusCount)
  }

  lemma {:induction false} SumOne<T>(s: seq<T>)
    ensures Sum(s, One) == |s|
  {
    if s != [] {
      SumOne(s[..|s| - 1]);
    }
  }

  /** Each order lands in exactly one bucket: one bucket per status that occurs, each
      counting its orders, and the counts add up to the number of orders. */
  lemma OrdersByStatusCorrect(orders: seq<Order>)
    ensures var r := OrdersByStatus(orders);
      && (forall i, j :: 0 <= i < j < |r| ==> r[i].status != r[j].status)
      && (forall k :: 0 <= k < |orders| ==> exists i :: 0 <= i < |r| && r[i].status == orders[k].status)
      && (forall i :: 0 <= i < |r| ==> r[i].count == SumWhere(orders, StatusKey, r[i].status, One))
      && Sum(r, Count) == |orders|
  {
    var groups := GroupBy(orders, StatusKey, One, One);
    GroupByCorrect(orders, StatusKey, One, One);
    StatusRows(orders, groups, OrdersByStatus(orders));
    SumMap(groups, ToStatusCount, Count, First);
    GroupByTotal(orders, StatusKey, One, One);
    SumOne(orders);
  }

  /** The rows of a correct bucketing by status, with the stages as plain values. */
  lemma StatusRows(orders: seq<Order>, groups: seq<Group<Status>>, r: seq<StatusCount>)
    requires Buckets(groups, orders, StatusKey, One, One)
    requires |r| == |groups| && forall i :: 0 <= i < |groups| ==> r[i] == ToStatusCount(groups[i])
    ensures forall i, j :: 0 <= i < j < |r| ==> r[i].status != r[j].status
    ensures forall k :: 0 <= k < |orders| ==> exists i :: 0 <= i < |r| && r[i].status == orders[k].status
    ensures forall i :: 0 <= i < |r| ==> r[i].count == SumWhere(orders, StatusKey, r[i].status, One)
  {
    forall k | 0 <= k < |orders| ensures exists i :: 0 <= i < |r| && r[i].status == orders[k].status {
      var m :| 0 <= m < |groups| && groups[m].key == StatusKey(orders[k]);
      assert r[m].status == orders[k].status;
    }
  }

  datatype Analytics = Analytics(totalOrders: nat, totalRevenue: int, totalCustomers: nat,
                                 ordersByStatus: seq<StatusCount>)

  /** `getAnalytics`, without the hard-coded conversion rate and the average order value. */
  function AnalyticsOf(orders: seq<Order>, users: seq<UserRecord>): (r: Analytics)
    ensures r.totalOrders == |orders| == Sum(r.ordersByStatus, Count)
    ensures r.totalRevenue == TotalRevenue(orders) && r.totalCustomers == CountCustomers(users)
    ensures r.ordersByStatus == OrdersByStatus(orders)
  {
    OrdersByStatusCorrect(orders);
    Analytics(|orders|, TotalRevenue(orders), CountCustomers(users), OrdersByStatus(orders))
  }
}
