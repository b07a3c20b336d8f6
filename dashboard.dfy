/**
  The admin dashboard (`Main.jsx`): the order count over the monthly reports,
  the product quantities summed per product name across months, and the five
  best-selling products with their total.  The chart labels (month names,
  percentages) are presentation and are not modelled.
*/
module Dashboard {
  import opened Wrappers
  import opened Text

  /** One line of a report's `products_details`; `quantity` may be missing. */
  datatype Entry = Entry(product: string, quantity: Option<nat>)

  /**
    A monthly report as the dashboard reads it: `total_orders` (maybe
    missing) and `products_details`, `None` when missing or not an array.
  */
  datatype Row = Row(totalOrders: Option<nat>, details: Option<seq<Entry>>)

  /** `m.total_orders || 0` */
  function OrdersOf(r: Row): nat {
    if r.totalOrders.Some? then r.totalOrders.value else 0
  }

  /** `totalOrders`: the orders of every report added up, a missing count counting as 0. */
  function TotalOrders(rows: seq<Row>): (n: nat)
    ensures forall k :: 0 <= k < |rows| ==> OrdersOf(rows[k]) <= n
    ensures (forall k :: 0 <= k < |rows| ==> rows[k].totalOrders.None?) ==> n == 0
  {
    if rows == [] then 0 else TotalOrders(rows[..|rows| - 1]) + OrdersOf(rows[|rows| - 1])
  }

  /** The order total of several months is the sum of their parts. */
  lemma {:induction false} TotalOrdersAppend(a: seq<Row>, b: seq<Row>)
    ensures TotalOrders(a + b) == TotalOrders(a) + TotalOrders(b)
    decreases |b|
  {
    if b != [] {
      var b' := b[..|b| - 1];
      assert (a + b)[..|a + b| - 1] == a + b';
      TotalOrdersAppend(a, b');
    } else {
      assert a + b == a;
    }
  }

  // ---------------------------------------------------------------------------
  // allProducts
  // ---------------------------------------------------------------------------

  /** The product lines of the reports that have a list of them, report after report. */
  function AllEntries(rows: seq<Row>): seq<Entry> {
    if rows == [] then []
    else AllEntries(rows[..|rows| - 1])
         + (if rows[|rows| - 1].details.Some? then rows[|rows| - 1].details.value else [])
  }

  /** A product line is collected exactly when it belongs to a report whose details are a list. */
  lemma {:induction false} AllEntriesMembers(rows: seq<Row>, e: Entry)
    ensures e in AllEntries(rows) <==> exists k :: 0 <= k < |rows| && rows[k].details.Some? && e in rows[k].details.value
  {
    if rows != [] {
      var init := rows[..|rows| - 1];
      AllEntriesMembers(init, e);
      if e in AllEntries(rows) && e !in AllEntries(init) {
        var k := |rows| - 1;
        assert rows[k].details.Some? && e in rows[k].details.value;
      }
      if exists k :: 0 <= k < |rows| && rows[k].details.Some? && e in rows[k].details.value {
        var k :| 0 <= k < |rows| && rows[k].details.Some? && e in rows[k].details.value;
        if k < |rows| - 1 {
          assert init[k] == rows[k];
        }
      }
    }
  }

  /** `reports.forEach(...)` pushing the details of each report that has an array of them. */
  method CollectProducts(rows: seq<Row>) returns (all: seq<Entry>)
    ensures all == AllEntries(rows)
  {
    all := [];
    for k := 0 to |rows|
      invariant all == AllEntries(rows[..k])
    {
      assert rows[..k + 1][..k] == rows[..k];
      if rows[k].details.Some? {
        all := all + rows[k].details.value;
      }
    }
    assert rows[..|rows|] == rows;
  }

  // ---------------------------------------------------------------------------
  // aggregatedProducts
  // ---------------------------------------------------------------------------

  /** `product.quantity || 0` */
  function QtyOf(e: Entry): nat {
    if e.quantity.Some? then e.quantity.value else 0
  }

  /** The trimmed names, each once, in the order they first appear (the key order of the accumulator). */
  function Names(xs: seq<Entry>): (ns: seq<string>)
    ensures forall i, j :: 0 <= i < j < |ns| ==> ns[i] != ns[j]
  {
    if xs == [] then []
    else
      var init := Names(xs[..|xs| - 1]);
      var n := Trim(xs[|xs| - 1].product);
      if n in init then init else init + [n]
  }

  /** The quantity of every line whose trimmed name is `name`, added up. */
  function Total(xs: seq<Entry>, name: string): nat {
    if xs == [] then 0
    else Total(xs[..|xs| - 1], name) + (if Trim(xs[|xs| - 1].product) == name then QtyOf(xs[|xs| - 1]) else 0)
  }

  /** A name is listed exactly when some line carries it after trimming. */
  lemma {:induction false} NamesMembers(xs: seq<Entry>, name: string)
    ensures name in Names(xs) <==> exists k :: 0 <= k < |xs| && Trim(xs[k].product) == name
  {
    if name in Names(xs) {
      var k := NameWitness(xs, name);
    }
    if exists k :: 0 <= k < |xs| && Trim(xs[k].product) == name {
      var k :| 0 <= k < |xs| && Trim(xs[k].product) == name;
      NameListed(xs, k);
    }
  }

  /** A listed name comes from some line. */
  lemma {:induction false} NameWitness(xs: seq<Entry>, name: string) returns (k: nat)
    requires name in Names(xs)
    ensures k < |xs| && Trim(xs[k].product) == name
  {
    var init := xs[..|xs| - 1];
    if name in Names(init) {
      k := NameWitness(init, name);
      assert xs[k] == init[k];
    } else {
      k := |xs| - 1;
    }
  }

  /** The name of every line is listed. */
  lemma {:induction false} NameListed(xs: seq<Entry>, k: nat)
    requires k < |xs|
    ensures Trim(xs[k].product) in Names(xs)
  {
    var init := xs[..|xs| - 1];
    if k < |xs| - 1 {
      assert init[k] == xs[k];
      NameListed(init, k);
    }
  }

  /**
    The `reduce` over `allProducts`: for each line, add its quantity to the
    entry for its trimmed name, creating the entry at the first sight of the
    name.
  */
  method Aggregate(xs: seq<Entry>) returns (keys: seq<string>, acc: map<string, nat>)
    ensures keys == Names(xs)
    ensures forall n :: n in acc <==> n in keys
    ensures forall n :: n in acc ==> acc[n] == Total(xs, n)
  {
    keys := [];
    acc := map[];
    for k := 0 to |xs|
      invariant keys == Names(xs[..k])
      invariant forall n :: n in acc <==> n in keys
      invariant forall n :: n in acc ==> acc[n] == Total(xs[..k], n)
    {
      var name := Trim(xs[k].product);
      var quantity := QtyOf(xs[k]);
      AggregateStep(xs, k);
      if name in acc {
        acc := acc[name := acc[name] + quantity];
      } else {
        NamesMembers(xs[..k], name);
        TotalAbsent(xs[..k], name);
        acc := acc[name := quantity];
        keys := keys + [name];
      }
    }
    assert xs[..|xs|] == xs;
  }

  /** One more line: its name joins the list if new, and its quantity adds to its name only. */
  lemma AggregateStep(xs: seq<Entry>, k: nat)
    requires k < |xs|
    ensures var n := Trim(xs[k].product);
      Names(xs[..k + 1]) == if n in Names(xs[..k]) then Names(xs[..k]) else Names(xs[..k]) + [n]
    ensures forall m :: Total(xs[..k + 1], m) == Total(xs[..k], m) + if Trim(xs[k].product) == m then QtyOf(xs[k]) else 0
  {
    var p := xs[..k + 1];
    assert p[..|p| - 1] == xs[..k] && p[|p| - 1] == xs[k];
  }

  lemma {:induction false} TotalAbsent(xs: seq<Entry>, name: string)
    requires forall k :: 0 <= k < |xs| ==> Trim(xs[k].product) != name
    ensures Total(xs, name) == 0
  {
    if xs != [] {
      TotalAbsent(xs[..|xs| - 1], name);
    }
  }

  /** Two lines whose names agree once trimmed are merged into one entry holding both quantities. */
  lemma TrimmedNamesMerge(x: Entry, y: Entry)
    requires Trim(x.product) == Trim(y.product)
    ensures Names([x, y]) == [Trim(x.product)]
    ensures Total([x, y], Trim(x.product)) == QtyOf(x) + QtyOf(y)
  {
    var xs := [x, y];
    assert xs[..1] == [x] && [x][..0] == [];
    assert Names([x]) == [Trim(x.product)];
    assert Total([x], Trim(x.product)) == QtyOf(x);
    assert Trim(y.product) in Names(xs[..1]);
  }

  // ---------------------------------------------------------------------------
  // sortedProducts and totalProductsSold
  // ---------------------------------------------------------------------------

  type Pair = (string, nat)

  /** `Object.entries(aggregatedProducts)` */
  function Entries(keys: seq<string>, acc: map<string, nat>): (ps: seq<Pair>)
    requires forall n :: n in keys ==> n in acc
    ensures |ps| == |keys| && forall i :: 0 <= i < |keys| ==> ps[i] == (keys[i], acc[keys[i]])
  {
    if keys == [] then [] else [(keys[0], acc[keys[0]])] + Entries(keys[1..], acc)
  }

  predicate NonIncreasing(ps: seq<Pair>) {
    forall i, j :: 0 <= i < j < |ps| ==> ps[i].1 >= ps[j].1
  }

  /** Places `x` after every pair whose quantity is at least its own. */
  function Insert(x: Pair, s: seq<Pair>): (r: seq<Pair>)
    requires NonIncreasing(s)
    ensures |r| == |s| + 1
    ensures forall p :: p in r ==> p == x || p in s
    ensures NonIncreasing(r)
  {
    if s == [] then [x]
    else if s[0].1 >= x.1 then
      var rest := Insert(x, s[1..]);
      assert forall k :: 0 <= k < |rest| ==> rest[k].1 <= s[0].1 by {
        forall k | 0 <= k < |rest| ensures rest[k].1 <= s[0].1 {
          assert rest[k] in rest;
          if rest[k] != x {
            var m :| 0 <= m < |s[1..]| && s[1..][m] == rest[k];
            assert s[m + 1] == rest[k];
          }
        }
      }
      [s[0]] + rest
    else [x] + s
  }

  lemma {:induction false} InsertPermutes(x: Pair, s: seq<Pair>)
    requires NonIncreasing(s)
    ensures multiset(Insert(x, s)) == multiset(s) + multiset{x}
  {
    if s != [] {
      assert s == [s[0]] + s[1..];
      if s[0].1 >= x.1 {
        InsertPermutes(x, s[1..]);
        assert Insert(x, s) == [s[0]] + Insert(x, s[1..]);
      }
    }
  }

  /** `.sort(([, a], [, b]) => b - a)`: a stable sort by quantity, largest first. */
  function SortDesc(ps: seq<Pair>): (r: seq<Pair>)
    ensures NonIncreasing(r) && |r| == |ps|
  {
    if ps == [] then [] else Insert(ps[|ps| - 1], SortDesc(ps[..|ps| - 1]))
  }

  /** Sorting only reorders the entries. */
  lemma {:induction false} SortDescPermutes(ps: seq<Pair>)
    ensures multiset(SortDesc(ps)) == multiset(ps)
  {
    if ps != [] {
      var init := ps[..|ps| - 1];
      SortDescPermutes(init);
      InsertPermutes(ps[|ps| - 1], SortDesc(init));
      assert ps == init + [ps[|ps| - 1]];
    }
  }

  function SumQty(ps: seq<Pair>): nat {
    if ps == [] then 0 else ps[0].1 + SumQty(ps[1..])
  }

  /** `.slice(0, 5)` of the sorted entries. */
  function TopFive(ps: seq<Pair>): (top: seq<Pair>)
    ensures |top| <= 5 && |top| <= |ps| && (|ps| >= 5 ==> |top| == 5)
    ensures NonIncreasing(top)
  {
    var sorted := SortDesc(ps);
    sorted[..if |sorted| < 5 then |sorted| else 5]
  }

  /** The entries shown are entries of the list, and none left out sold more than one shown. */
  lemma TopFiveIsTop(ps: seq<Pair>)
    ensures multiset(TopFive(ps)) <= multiset(ps)
    ensures forall i, j :: 0 <= i < |TopFive(ps)| <= j < |SortDesc(ps)| ==> TopFive(ps)[i].1 >= SortDesc(ps)[j].1
  {
    var sorted := SortDesc(ps);
    var n := if |sorted| < 5 then |sorted| else 5;
    var top := sorted[..n];
    assert sorted == top + sorted[n..];
    SortDescPermutes(ps);
  }

  /** `totalProductsSold`: the quantities of the five entries shown, not of every product. */
  function TotalProductsSold(ps: seq<Pair>): nat {
    SumQty(TopFive(ps))
  }

  lemma {:induction false} SumQtyAppend(a: seq<Pair>, b: seq<Pair>)
    ensures SumQty(a + b) == SumQty(a) + SumQty(b)
  {
    if a != [] {
      assert (a + b)[1..] == a[1..] + b;
      SumQtyAppend(a[1..], b);
    } else {
      assert a + b == b;
    }
  }

  lemma {:induction false} SumQtyInsert(x: Pair, s: seq<Pair>)
    requires NonIncreasing(s)
    ensures SumQty(Insert(x, s)) == SumQty(s) + x.1
  {
    if s != [] && s[0].1 >= x.1 {
      SumQtyInsert(x, s[1..]);
    }
  }

  lemma {:induction false} SumQtySort(ps: seq<Pair>)
    ensures SumQty(SortDesc(ps)) == SumQty(ps)
  {
    if ps != [] {
      var init := ps[..|ps| - 1];
      SumQtySort(init);
      SumQtyInsert(ps[|ps| - 1], SortDesc(init));
      assert ps == init + [ps[|ps| - 1]];
      SumQtyAppend(init, [ps[|ps| - 1]]);
    }
  }

  /** A prefix of the entries sums to no more than all of them, and to as much when it is all of them. */
  lemma PrefixSum(s: seq<Pair>, n: nat)
    requires n <= |s|
    ensures SumQty(s[..n]) <= SumQty(s)
    ensures n == |s| ==> SumQty(s[..n]) == SumQty(s)
  {
    assert s == s[..n] + s[n..];
    SumQtyAppend(s[..n], s[n..]);
  }

  /** The dashboard's total never exceeds the units of all products, and equals it with five products or fewer. */
  lemma TotalProductsSoldBound(ps: seq<Pair>)
    ensures TotalProductsSold(ps) <= SumQty(ps)
    ensures |ps| <= 5 ==> TotalProductsSold(ps) == SumQty(ps)
  {
    var sorted := SortDesc(ps);
    var n := if |sorted| < 5 then |sorted| else 5;
    PrefixSum(sorted, n);
    SumQtySort(ps);
  }

  lemma {:induction false} SumQtyOnes(ps: seq<Pair>)
    requires forall i :: 0 <= i < |ps| ==> ps[i].1 == 1
    ensures SumQty(ps) == |ps|
  {
    if ps != [] {
      SumQtyOnes(ps[1..]);
    }
  }

  /** Six products of one unit each: the dashboard shows 5 units sold although 6 were. */
  lemma SixthProductNotCounted()
    ensures var ps := [("a", 1), ("b", 1), ("c", 1), ("d", 1), ("e", 1), ("f", 1)];
      TotalProductsSold(ps) == 5 && SumQty(ps) == 6
  {
    var ps: seq<Pair> := [("a", 1), ("b", 1), ("c", 1), ("d", 1), ("e", 1), ("f", 1)];
    SumQtyOnes(ps);
    var top := TopFive(ps);
    TopFiveIsTop(ps);
    forall i | 0 <= i < |top| ensures top[i].1 == 1 {
      assert top[i] in multiset(top);
      assert top[i] in multiset(ps);
    }
    SumQtyOnes(top);
  }
}
