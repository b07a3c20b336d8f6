/**
  Sales reports (`update_reports`, run after every save of an order).  When the
  saved order is paid, the monthly report of its month and the yearly report of
  its year are recomputed from scratch over every paid order of that period and
  the order lines of those orders.

  Order lines point at their order by position in the order table.  The order
  in which the database returns the per-product groups is not fixed by the
  code; the model lists the groups in order of first appearance.
*/
module Reports {
  import opened Wrappers
  import opened Orders
  import Text

  /** A month (year and month number) or a calendar year. */
  datatype Period = Month(year: int, month: int) | Year(year: int)

  predicate InPeriod(d: Date, p: Period) {
    match p
    case Month(y, m) => d.year == y && d.month == m
    case Year(y) => d.year == y
  }

  predicate PaidIn(o: Order, p: Period) {
    o.paymentStatus == "paid" && InPeriod(o.createdAt, p)
  }

  /** `paid_orders.count()`: the paid orders of the period, with or without lines. */
  function PaidCount(orders: seq<Order>, p: Period): (n: nat)
    ensures n <= |orders|
    ensures n == 0 <==> forall k :: 0 <= k < |orders| ==> !PaidIn(orders[k], p)
  {
    if orders == [] then 0
    else PaidCount(orders[..|orders| - 1], p) + (if PaidIn(orders[|orders| - 1], p) then 1 else 0)
  }

  predicate ItemInPeriod(orders: seq<Order>, it: OrderItem, p: Period) {
    it.order < |orders| && PaidIn(orders[it.order], p)
  }

  /** `OrderItem.objects.filter(order__in=paid_orders)`, in table order. */
  function PeriodItems(orders: seq<Order>, items: seq<OrderItem>, p: Period): (r: seq<OrderItem>)
    ensures forall it :: it in r <==> it in items && ItemInPeriod(orders, it, p)
    ensures |r| <= |items|
  {
    if items == [] then []
    else
      var last := items[|items| - 1];
      PeriodItems(orders, items[..|items| - 1], p) + (if ItemInPeriod(orders, last, p) then [last] else [])
  }

  /** `PeriodItems` keeps table order: filtering a concatenation is filtering each part. */
  lemma {:induction false} PeriodItemsAppend(orders: seq<Order>, a: seq<OrderItem>, b: seq<OrderItem>, p: Period)
    ensures PeriodItems(orders, a + b, p) == PeriodItems(orders, a, p) + PeriodItems(orders, b, p)
  {
    if b == [] {
      assert a + b == a;
    } else {
      var init, last := b[..|b| - 1], b[|b| - 1];
      assert (a + b)[..|a + b| - 1] == a + init && (a + b)[|a + b| - 1] == last;
      PeriodItemsAppend(orders, a, init, p);
      var kept := if ItemInPeriod(orders, last, p) then [last] else [];
      assert PeriodItems(orders, a + b, p) == PeriodItems(orders, a + init, p) + kept;
      assert PeriodItems(orders, b, p) == PeriodItems(orders, init, p) + kept;
      Text.AppendAssoc(PeriodItems(orders, a, p), PeriodItems(orders, init, p), kept);
    }
  }

  /** A one-item table keeps its item exactly when it was sold in the period. */
  lemma PeriodItemsOne(orders: seq<Order>, it: OrderItem, p: Period)
    ensures PeriodItems(orders, [it], p) == if ItemInPeriod(orders, it, p) then [it] else []
  {
    assert [it][..0] == [];
  }

  // ---------------------------------------------------------------------------
  // Totals over order lines
  // ---------------------------------------------------------------------------

  /** `Sum("subtotal")`, 0 when there are no lines. */
  function Income(items: seq<OrderItem>): real {
    if items == [] then 0.0 else Income(items[..|items| - 1]) + items[|items| - 1].subtotal
  }

  /** `Sum("quantity")`, 0 when there are no lines. */
  function Sold(items: seq<OrderItem>): nat {
    if items == [] then 0 else Sold(items[..|items| - 1]) + items[|items| - 1].quantity
  }

  /** `Sum(F("actual_price") * F("quantity"))`: what the goods sold cost. */
  function Cost(items: seq<OrderItem>): real {
    if items == [] then 0.0
    else Cost(items[..|items| - 1]) + items[|items| - 1].actualPrice * items[|items| - 1].quantity as real
  }

  function ItemProfit(it: OrderItem): real {
    (it.price - it.actualPrice) * it.quantity as real
  }

  /** `sum((i.price - i.actual_price) * i.quantity for i in items)`. */
  function Profit(items: seq<OrderItem>): real {
    if items == [] then 0.0 else Profit(items[..|items| - 1]) + ItemProfit(items[|items| - 1])
  }

  // ---------------------------------------------------------------------------
  // Per-product groups: `values("product_name").annotate(...)`
  // ---------------------------------------------------------------------------

  datatype Group = Group(name: string, qty: nat, income: real, actual: real)

  function GroupOf(it: OrderItem): Group {
    Group(it.productName, it.quantity, it.subtotal, it.actualPrice * it.quantity as real)
  }

  function Names(gs: seq<Group>): seq<string> {
    if gs == [] then [] else [gs[0].name] + Names(gs[1..])
  }

  predicate DistinctNames(gs: seq<Group>) {
    forall i, j :: 0 <= i < j < |gs| ==> gs[i].name != gs[j].name
  }

  /** Add one line to the group of its product name, opening a group at the end for a new name. */
  function AddTo(gs: seq<Group>, it: OrderItem): (r: seq<Group>)
    ensures |r| == |gs| || |r| == |gs| + 1
    ensures forall n :: n in Names(r) <==> n in Names(gs) || n == it.productName
  {
    if gs == [] then [GroupOf(it)]
    else if gs[0].name == it.productName then
      [Group(gs[0].name, gs[0].qty + it.quantity, gs[0].income + it.subtotal,
             gs[0].actual + it.actualPrice * it.quantity as real)] + gs[1..]
    else [gs[0]] + AddTo(gs[1..], it)
  }

  /** The groups of a list of order lines, in order of first appearance. */
  function Groups(items: seq<OrderItem>): seq<Group> {
    if items == [] then [] else AddTo(Groups(items[..|items| - 1]), items[|items| - 1])
  }

  function GroupQty(gs: seq<Group>): nat {
    if gs == [] then 0 else gs[0].qty + GroupQty(gs[1..])
  }

  function GroupIncome(gs: seq<Group>): real {
    if gs == [] then 0.0 else gs[0].income + GroupIncome(gs[1..])
  }

  function GroupActual(gs: seq<Group>): real {
    if gs == [] then 0.0 else gs[0].actual + GroupActual(gs[1..])
  }

  lemma {:induction false} NamesIndex(gs: seq<Group>, n: string)
    ensures n in Names(gs) <==> exists k :: 0 <= k < |gs| && gs[k].name == n
  {
    if gs != [] {
      NamesIndex(gs[1..], n);
      if n in Names(gs[1..]) {
        var k :| 0 <= k < |gs[1..]| && gs[1..][k].name == n;
        assert gs[k + 1].name == n;
      }
      if exists k :: 0 <= k < |gs| && gs[k].name == n {
        var k :| 0 <= k < |gs| && gs[k].name == n;
        if k > 0 {
          assert gs[1..][k - 1].name == n;
        }
      }
    }
  }

  /** Adding a line adds its quantity, subtotal and cost to the group totals, and keeps the names distinct. */
  lemma {:induction false} AddToSums(gs: seq<Group>, it: OrderItem)
    ensures GroupQty(AddTo(gs, it)) == GroupQty(gs) + it.quantity
    ensures GroupIncome(AddTo(gs, it)) == GroupIncome(gs) + it.subtotal
    ensures GroupActual(AddTo(gs, it)) == GroupActual(gs) + it.actualPrice * it.quantity as real
    ensures DistinctNames(gs) ==> DistinctNames(AddTo(gs, it))
  {
    if gs != [] && gs[0].name != it.productName {
      AddToSums(gs[1..], it);
      var r := AddTo(gs, it);
      assert r[1..] == AddTo(gs[1..], it);
      if DistinctNames(gs) {
        assert DistinctNames(gs[1..]);
        forall j | 0 < j < |r|
          ensures r[0].name != r[j].name
        {
          NamesIndex(r[1..], gs[0].name);
          NamesIndex(gs[1..], gs[0].name);
          assert r[j] == r[1..][j - 1];
        }
      }
    } else if gs != [] {
      var r := AddTo(gs, it);
      assert r[1..] == gs[1..];
    }
  }

  /**
    The per-product breakdown covers every line exactly once: its quantities
    sum to the units sold, its incomes to the income, its costs to the cost;
    and no product name appears twice.
  */
  lemma {:induction false} GroupsCoverItems(items: seq<OrderItem>)
    ensures GroupQty(Groups(items)) == Sold(items)
    ensures GroupIncome(Groups(items)) == Income(items)
    ensures GroupActual(Groups(items)) == Cost(items)
    ensures DistinctNames(Groups(items))
  {
    if items != [] {
      GroupsCoverItems(items[..|items| - 1]);
      AddToSums(Groups(items[..|items| - 1]), items[|items| - 1]);
    }
  }

  /** The groups are named by exactly the product names that occur in the lines. */
  lemma {:induction false} GroupsNames(items: seq<OrderItem>)
    ensures forall n :: n in Names(Groups(items)) <==> exists it :: it in items && it.productName == n
  {
    if items != [] {
      var init := items[..|items| - 1];
      GroupsNames(init);
      forall n
        ensures n in Names(Groups(items)) <==> exists it :: it in items && it.productName == n
      {
        if exists it :: it in items && it.productName == n {
          var it :| it in items && it.productName == n;
          if it != items[|items| - 1] {
            assert it in init;
          }
        }
      }
    }
  }

  lemma GroupsEmpty(items: seq<OrderItem>)
    ensures Groups(items) == [] <==> items == []
  {
    if items != [] {
      assert items[|items| - 1].productName in Names(Groups(items));
    }
  }

  // ---------------------------------------------------------------------------
  // The top product
  // ---------------------------------------------------------------------------

  function MaxQty(gs: seq<Group>): (m: nat)
    ensures forall k :: 0 <= k < |gs| ==> gs[k].qty <= m
    ensures gs != [] ==> exists k :: 0 <= k < |gs| && gs[k].qty == m
  {
    if gs == [] then 0
    else
      var rest := MaxQty(gs[1..]);
      assert forall k :: 1 <= k < |gs| ==> gs[k] == gs[1..][k - 1];
      if gs[0].qty >= rest then gs[0].qty else rest
  }

  /** `order_by("-total").first()`: a group with the largest summed quantity. */
  function Top(gs: seq<Group>): (r: Option<string>)
    ensures r.None? <==> gs == []
    ensures r.Some? ==> exists k :: 0 <= k < |gs| && gs[k].name == r.value && gs[k].qty == MaxQty(gs)
  {
    if gs == [] then None
    else
      var k := FirstWithQty(gs, MaxQty(gs));
      Some(gs[k].name)
  }

  function FirstWithQty(gs: seq<Group>, q: nat): (k: nat)
    requires exists k :: 0 <= k < |gs| && gs[k].qty == q
    ensures k < |gs| && gs[k].qty == q
  {
    if gs[0].qty == q then 0
    else
      assert exists k :: 0 <= k < |gs[1..]| && gs[1..][k].qty == q by {
        var j :| 0 <= j < |gs| && gs[j].qty == q;
        assert gs[1..][j - 1].qty == q;
      }
      1 + FirstWithQty(gs[1..], q)
  }

  // ---------------------------------------------------------------------------
  // Reports
  // ---------------------------------------------------------------------------

  /** One entry of `products_details`. */
  datatype Detail = Detail(product: string, quantity: nat, income: real, profit: real)

  datatype Report = Report(totalIncome: real, totalProfit: real, totalOrders: nat, totalProductsSold: nat,
                           topProduct: Option<string>, productsDetails: seq<Detail>)

  function DetailOf(g: Group): Detail {
    Detail(g.name, g.qty, g.income, g.income - g.actual)
  }

  /** The breakdown entries, one per group, in order. */
  function DetailsOf(gs: seq<Group>): (ds: seq<Detail>)
    ensures |ds| == |gs|
    ensures forall k :: 0 <= k < |gs| ==> ds[k] == DetailOf(gs[k])
  {
    if gs == [] then [] else [DetailOf(gs[0])] + DetailsOf(gs[1..])
  }

  /** The `for g in grouped` append loop. */
  method BuildDetails(gs: seq<Group>) returns (ds: seq<Detail>)
    ensures ds == DetailsOf(gs)
  {
    ds := [];
    var k := 0;
    while k < |gs|
      invariant 0 <= k <= |gs|
      invariant |ds| == k && forall j :: 0 <= j < k ==> ds[j] == DetailOf(gs[j])
    {
      ds := ds + [DetailOf(gs[k])];
      k := k + 1;
    }
  }

  function DetailQty(ds: seq<Detail>): nat {
    if ds == [] then 0 else ds[0].quantity + DetailQty(ds[1..])
  }

  function DetailIncome(ds: seq<Detail>): real {
    if ds == [] then 0.0 else ds[0].income + DetailIncome(ds[1..])
  }

  function DetailProfit(ds: seq<Detail>): real {
    if ds == [] then 0.0 else ds[0].profit + DetailProfit(ds[1..])
  }

  lemma {:induction false} DetailSums(gs: seq<Group>)
    ensures DetailQty(DetailsOf(gs)) == GroupQty(gs)
    ensures DetailIncome(DetailsOf(gs)) == GroupIncome(gs)
    ensures DetailProfit(DetailsOf(gs)) == GroupIncome(gs) - GroupActual(gs)
  {
    if gs != [] {
      DetailSums(gs[1..]);
      assert DetailsOf(gs)[1..] == DetailsOf(gs[1..]);
    }
  }

  /** The report of one period, recomputed from every paid order of it. */
  function ReportFor(orders: seq<Order>, items: seq<OrderItem>, p: Period): (r: Report)
    ensures r.topProduct.Some? ==>
      exists k :: 0 <= k < |r.productsDetails| && r.productsDetails[k].product == r.topProduct.value
        && forall j :: 0 <= j < |r.productsDetails| ==> r.productsDetails[j].quantity <= r.productsDetails[k].quantity
  {
    var its := PeriodItems(orders, items, p);
    Report(Income(its), Profit(its), PaidCount(orders, p), Sold(its), Top(Groups(its)), DetailsOf(Groups(its)))
  }

  /**
    The breakdown agrees with the totals: quantities sum to the units sold,
    incomes to the income, and the top product is None exactly when no line
    was sold in the period.
  */
  lemma ReportConsistent(orders: seq<Order>, items: seq<OrderItem>, p: Period)
    ensures var r := ReportFor(orders, items, p);
      DetailQty(r.productsDetails) == r.totalProductsSold
      && DetailIncome(r.productsDetails) == r.totalIncome
      && (r.topProduct.None? <==> PeriodItems(orders, items, p) == [])
  {
    var its := PeriodItems(orders, items, p);
    GroupsCoverItems(its);
    DetailSums(Groups(its));
    GroupsEmpty(its);
  }

  /** The per-product profits sum to the subtotals less the cost. */
  lemma {:induction false} ProfitIsIncomeLessCost(items: seq<OrderItem>)
    requires forall k :: 0 <= k < |items| ==> items[k].subtotal == items[k].price * items[k].quantity as real
    ensures Profit(items) == Income(items) - Cost(items)
  {
    if items != [] {
      ProfitIsIncomeLessCost(items[..|items| - 1]);
    }
  }

  /**
    The per-product profits sum to `total_profit` when every line's subtotal
    is its price times its quantity (the client sends the subtotal, so this is
    not guaranteed).
  */
  lemma BreakdownProfitMatchesTotal(orders: seq<Order>, items: seq<OrderItem>, p: Period)
    requires forall it :: it in items ==> it.subtotal == it.price * it.quantity as real
    ensures var r := ReportFor(orders, items, p); DetailProfit(r.productsDetails) == r.totalProfit
  {
    var its := PeriodItems(orders, items, p);
    GroupsCoverItems(its);
    DetailSums(Groups(its));
    assert forall k :: 0 <= k < |its| ==> its[k] in items;
    ProfitIsIncomeLessCost(its);
  }

  /** A line whose subtotal is not price times quantity: total and per-product profit disagree. */
  lemma ProfitsCanDisagree()
    ensures var it := OrderItem(0, 1, "Napa", 1, 5.0, 10.0, 8.0);
      var its := [it];
      Profit(its) == 5.0 && DetailProfit(DetailsOf(Groups(its))) == 3.0
  {
    var it := OrderItem(0, 1, "Napa", 1, 5.0, 10.0, 8.0);
    assert [it][..0] == [];
  }

  /** The report of a month keyed by the order's creation date, and of its year. */
  function MonthOf(d: Date): Period { Month(d.year, d.month) }

  class ReportStore {
    var monthly: map<(int, int), Report>
    var yearly: map<int, Report>

    constructor ()
      ensures monthly == map[] && yearly == map[]
    {
      monthly := map[];
      yearly := map[];
    }

    /**
      `update_reports` for the order at position `saved`: nothing when it is
      not paid; otherwise the reports of its month and of its year are
      recomputed and stored, and no other report changes.
    */
    method UpdateReports(orders: seq<Order>, items: seq<OrderItem>, saved: nat)
      requires saved < |orders|
      modifies this
      ensures orders[saved].paymentStatus != "paid" ==> monthly == old(monthly) && yearly == old(yearly)
      ensures orders[saved].paymentStatus == "paid" ==>
        var d := orders[saved].createdAt;
        monthly == old(monthly)[(d.year, d.month) := ReportFor(orders, items, MonthOf(d))]
        && yearly == old(yearly)[d.year := ReportFor(orders, items, Year(d.year))]
    {
      var instance := orders[saved];
      if instance.paymentStatus != "paid" {
        return;
      }
      var d := instance.createdAt;
      var report := ComputeReport(orders, items, MonthOf(d));
      monthly := monthly[(d.year, d.month) := report];
      var yReport := ComputeReport(orders, items, Year(d.year));
      yearly := yearly[d.year := yReport];
    }
  }

  /** One report: the aggregates, then the breakdown built by the append loop. */
  method ComputeReport(orders: seq<Order>, items: seq<OrderItem>, p: Period) returns (r: Report)
    ensures r == ReportFor(orders, items, p)
  {
    var its := PeriodItems(orders, items, p);
    var details := BuildDetails(Groups(its));
    r := Report(Income(its), Profit(its), PaidCount(orders, p), Sold(its), Top(Groups(its)), details);
  }

  /**
    A paid order's lines reach the reports of its own month and year only:
    adding a line of an order that is not paid in the period changes nothing.
  */
  lemma {:induction false} OtherLinesIgnored(orders: seq<Order>, items: seq<OrderItem>, it: OrderItem, p: Period)
    requires !ItemInPeriod(orders, it, p)
    ensures ReportFor(orders, items + [it], p) == ReportFor(orders, items, p)
  {
    assert (items + [it])[..|items|] == items;
    assert PeriodItems(orders, items + [it], p) == PeriodItems(orders, items, p);
  }
}
