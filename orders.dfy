/**
  Cart totals and order lines.  The cart serializer and the cart admin screen
  each total a cart, with different prices; `OrderSerializer.create` stores an
  order and one order line per submitted item, snapshotting the product's
  selling price and cost price at that moment.

  Amounts are exact decimals (`real`); the `float(...)` conversions and the
  rounding to two places of the totals are not modelled.
*/
module Orders {
  import opened Wrappers
  import Catalog

  /** The price columns of a stored product that the cart and order code read. */
  datatype ProductRow = ProductRow(price: real, offerPrice: real, newPrice: real, actualPrice: real)

  /** A cart line with the product it refers to (the foreign key is never null). */
  datatype Line = Line(product: ProductRow, quantity: nat)

  /** A product whose derived columns are the ones `Product.save` stores. */
  predicate Saved(p: ProductRow) {
    Catalog.DerivePrices(p.price, p.offerPrice).newPrice == p.newPrice
  }

  // ---------------------------------------------------------------------------
  // Cart totals
  // ---------------------------------------------------------------------------

  /**
    `get_total_quantity` (and the admin column of the same name): the
    quantities summed.  Stored lines have quantity at least 1, so the total is
    at least the line count `get_total_items`.
  */
  function TotalQuantity(lines: seq<Line>): (n: nat)
    ensures (forall k :: 0 <= k < |lines| ==> lines[k].quantity >= 1) ==> n >= |lines|
    ensures n == 0 <==> forall k :: 0 <= k < |lines| ==> lines[k].quantity == 0
  {
    if lines == [] then 0 else TotalQuantity(lines[..|lines| - 1]) + lines[|lines| - 1].quantity
  }

  /** The list price times the quantity, for lines whose list price is not zero. */
  function BaseTerm(l: Line): real {
    if l.product.price != 0.0 then l.product.price * l.quantity as real else 0.0
  }

  /** What the serializer's `get_total_price` accumulates. */
  function BasePriceTotal(lines: seq<Line>): real {
    if lines == [] then 0.0 else BasePriceTotal(lines[..|lines| - 1]) + BaseTerm(lines[|lines| - 1])
  }

  /** The selling price when the product has an offer, else the list price, times the quantity. */
  function AdminTerm(l: Line): real {
    if l.product.offerPrice != 0.0 then l.product.newPrice * l.quantity as real
    else l.product.price * l.quantity as real
  }

  /** What the admin screen's `total_price` accumulates. */
  function AdminPriceTotal(lines: seq<Line>): real {
    if lines == [] then 0.0 else AdminPriceTotal(lines[..|lines| - 1]) + AdminTerm(lines[|lines| - 1])
  }

  /** The list price times the quantity, summed over every line. */
  function ListTotal(lines: seq<Line>): real {
    if lines == [] then 0.0
    else ListTotal(lines[..|lines| - 1]) + lines[|lines| - 1].product.price * lines[|lines| - 1].quantity as real
  }

  /** The selling price times the quantity, summed over every line. */
  function SellingTotal(lines: seq<Line>): real {
    if lines == [] then 0.0
    else SellingTotal(lines[..|lines| - 1]) + lines[|lines| - 1].product.newPrice * lines[|lines| - 1].quantity as real
  }

  /** `CartSerializer.get_total_price`: the accumulator loop over the cart lines. */
  method SerializerTotalPrice(lines: seq<Line>) returns (total: real)
    ensures total == BasePriceTotal(lines)
    ensures total == ListTotal(lines)
  {
    total := 0.0;
    var k := 0;
    while k < |lines|
      invariant 0 <= k <= |lines|
      invariant total == BasePriceTotal(lines[..k])
    {
      var item := lines[k];
      if item.product.price != 0.0 {
        total := total + item.product.price * item.quantity as real;
      }
      assert lines[..k + 1][..k] == lines[..k];
      k := k + 1;
    }
    assert lines[..k] == lines;
    SkippedLinesAddNothing(lines);
  }

  /** `CartAdmin.total_price`: the accumulator loop over the cart lines. */
  method AdminTotalPrice(lines: seq<Line>) returns (total: real)
    ensures total == AdminPriceTotal(lines)
    ensures (forall k :: 0 <= k < |lines| ==> Saved(lines[k].product)) ==> total == SellingTotal(lines)
  {
    total := 0.0;
    var k := 0;
    while k < |lines|
      invariant 0 <= k <= |lines|
      invariant total == AdminPriceTotal(lines[..k])
    {
      var item := lines[k];
      if item.product.offerPrice != 0.0 {
        total := total + item.product.newPrice * item.quantity as real;
      } else {
        total := total + item.product.price * item.quantity as real;
      }
      assert lines[..k + 1][..k] == lines[..k];
      k := k + 1;
    }
    assert lines[..k] == lines;
    if forall k :: 0 <= k < |lines| ==> Saved(lines[k].product) {
      AdminTotalIsSellingTotal(lines);
    }
  }

  /** The serializer's guard on a zero list price drops only lines that contribute nothing. */
  lemma {:induction false} SkippedLinesAddNothing(lines: seq<Line>)
    ensures BasePriceTotal(lines) == ListTotal(lines)
  {
    if lines != [] {
      SkippedLinesAddNothing(lines[..|lines| - 1]);
    }
  }

  /**
    For products saved by `Product.save`, the admin total is the selling-price
    total: without an offer the selling price is the list price.
  */
  lemma {:induction false} AdminTotalIsSellingTotal(lines: seq<Line>)
    requires forall k :: 0 <= k < |lines| ==> Saved(lines[k].product)
    ensures AdminPriceTotal(lines) == SellingTotal(lines)
  {
    if lines != [] {
      AdminTotalIsSellingTotal(lines[..|lines| - 1]);
    }
  }

  /**
    With saved products, non-negative list prices and offers of at most 100 %,
    the admin total never exceeds the serializer total.
  */
  lemma {:induction false} AdminTotalAtMostSerializerTotal(lines: seq<Line>)
    requires forall k :: 0 <= k < |lines| ==>
      Saved(lines[k].product) && lines[k].product.price >= 0.0 && 0.0 <= lines[k].product.offerPrice <= 100.0
    ensures AdminPriceTotal(lines) <= BasePriceTotal(lines)
  {
    if lines != [] {
      var init := lines[..|lines| - 1];
      assert forall k :: 0 <= k < |init| ==> init[k] == lines[k];
      AdminTotalAtMostSerializerTotal(init);
      AdminTermAtMostBase(lines[|lines| - 1]);
    }
  }

  /** On one line of a saved product with an offer of at most 100 %, the admin term is at most the list term. */
  lemma AdminTermAtMostBase(l: Line)
    requires Saved(l.product) && l.product.price >= 0.0 && 0.0 <= l.product.offerPrice <= 100.0
    ensures AdminTerm(l) <= BaseTerm(l)
  {
    var q := l.quantity as real;
    assert 0.0 <= l.product.newPrice <= l.product.price;
    assert (l.product.price - l.product.newPrice) * q >= 0.0;
  }

  /** One line of a list-price-100 product on a 10 % offer: the serializer says 100, the admin screen 90. */
  lemma TotalsDiffer()
    ensures var l := Line(ProductRow(100.0, 10.0, 90.0, 50.0), 1);
      Saved(l.product) && BasePriceTotal([l]) == 100.0 && AdminPriceTotal([l]) == 90.0
  {
    var l := Line(ProductRow(100.0, 10.0, 90.0, 50.0), 1);
    assert [l][..0] == [];
  }

  // ---------------------------------------------------------------------------
  // Orders and their lines
  // ---------------------------------------------------------------------------

  datatype Date = Date(year: int, month: int, day: int)

  /** The columns of an order that the payment and report code read. */
  datatype Order = Order(tranId: Option<string>, paymentStatus: string, status: string, createdAt: Date)

  /** One submitted order line: the product, its name and the client's quantity and subtotal. */
  datatype ItemData = ItemData(productId: nat, productName: string, quantity: nat, subtotal: real)

  datatype OrderItem = OrderItem(order: nat, productId: nat, productName: string, quantity: nat,
                                 actualPrice: real, price: real, subtotal: real)

  /** The selling price an order line records: the selling price unless it is zero, else the list price. */
  function SellingPrice(p: ProductRow): (r: real)
    ensures r == p.newPrice || r == p.price
    ensures p.newPrice != 0.0 ==> r == p.newPrice
    ensures r != 0.0 <==> (p.newPrice != 0.0 || p.price != 0.0)
  {
    if p.newPrice != 0.0 then p.newPrice else p.price
  }

  /** For a saved product with a positive list price and an offer below 100 %, the line records the selling price. */
  lemma SnapshotOfSavedProduct(p: ProductRow)
    requires Saved(p) && p.price > 0.0 && 0.0 <= p.offerPrice < 100.0
    ensures SellingPrice(p) == p.newPrice && 0.0 < SellingPrice(p) <= p.price
  {
    var d := Catalog.DerivePrices(p.price, p.offerPrice);
    if p.offerPrice > 0.0 {
      assert p.price * p.offerPrice < p.price * 100.0;
      assert d.discountPrice == p.price * p.offerPrice / 100.0 < p.price * 100.0 / 100.0 == p.price;
    }
    assert p.newPrice == d.newPrice > 0.0;
  }

  /** The order line stored for one submitted item. */
  function Snapshot(order: nat, d: ItemData, p: ProductRow): (it: OrderItem)
    ensures it.order == order && it.productId == d.productId && it.productName == d.productName
    ensures it.quantity == d.quantity && it.subtotal == d.subtotal
    ensures it.price == SellingPrice(p) && it.actualPrice == p.actualPrice
  {
    OrderItem(order, d.productId, d.productName, d.quantity, p.actualPrice, SellingPrice(p), d.subtotal)
  }

  predicate AllKnown(data: seq<ItemData>, products: map<nat, ProductRow>) {
    forall k :: 0 <= k < |data| ==> data[k].productId in products
  }

  /** The lines stored for the submitted items, in order. */
  function Snapshots(order: nat, data: seq<ItemData>, products: map<nat, ProductRow>): seq<OrderItem>
    requires AllKnown(data, products)
  {
    if data == [] then []
    else Snapshots(order, data[..|data| - 1], products)
         + [Snapshot(order, data[|data| - 1], products[data[|data| - 1].productId])]
  }

  /** Each stored line copies quantity and subtotal from its item and takes its prices from the product. */
  lemma {:induction false} SnapshotsAt(order: nat, data: seq<ItemData>, products: map<nat, ProductRow>, k: nat)
    requires AllKnown(data, products) && k < |data|
    ensures |Snapshots(order, data, products)| == |data|
    ensures Snapshots(order, data, products)[k] == Snapshot(order, data[k], products[data[k].productId])
  {
    var n := |data| - 1;
    if k < n {
      SnapshotsAt(order, data[..n], products, k);
    } else if n > 0 {
      SnapshotsAt(order, data[..n], products, 0);
    }
  }

  /** How many leading items name a stored product: the loop stops at the first that does not. */
  function KnownPrefix(data: seq<ItemData>, products: map<nat, ProductRow>): (k: nat)
    ensures k <= |data| && AllKnown(data[..k], products)
    ensures k < |data| ==> data[k].productId !in products
    ensures AllKnown(data, products) ==> k == |data|
  {
    if data == [] then 0
    else if data[0].productId !in products then 0
    else
      var rest := KnownPrefix(data[1..], products);
      assert data[..1 + rest] == [data[0]] + data[1..][..rest];
      1 + rest
  }

  class OrderBook {
    var products: map<nat, ProductRow>
    var orders: seq<Order>
    var items: seq<OrderItem>

    constructor (products: map<nat, ProductRow>)
      ensures this.products == products && orders == [] && items == []
    {
      this.products := products;
      orders := [];
      items := [];
    }

    /**
      `OrderSerializer.create`: store the order, then one line per submitted
      item.  An item naming an unknown product raises `DoesNotExist`; the order
      and the lines stored before it stay, since nothing rolls them back.
    */
    method Create(header: Order, data: seq<ItemData>) returns (r: Result<nat, string>)
      modifies this`orders, this`items
      ensures orders == old(orders) + [header]
      ensures var k := KnownPrefix(data, products);
        items == old(items) + Snapshots(|old(orders)|, data[..k], products)
        && (r.Ok? <==> k == |data|)
      ensures r.Ok? ==> r.value == |old(orders)|
    {
      var id := |orders|;
      orders := orders + [header];
      ghost var stop := KnownPrefix(data, products);
      var k := 0;
      while k < |data|
        invariant orders == old(orders) + [header] && id == |old(orders)|
        invariant 0 <= k <= stop && AllKnown(data[..k], products)
        invariant items == old(items) + Snapshots(id, data[..k], products)
      {
        if data[k].productId !in products {
          KnownPrefixAt(data, products, k);
          return Err("Product matching query does not exist.");
        }
        SnapshotsStep(id, data, products, k);
        items := items + [Snapshot(id, data[k], products[data[k].productId])];
        k := k + 1;
      }
      return Ok(id);
    }
  }

  /** One more known item adds its own line after the lines before it. */
  lemma SnapshotsStep(order: nat, data: seq<ItemData>, products: map<nat, ProductRow>, k: nat)
    requires k < |data| && AllKnown(data[..k], products) && data[k].productId in products
    ensures AllKnown(data[..k + 1], products)
    ensures Snapshots(order, data[..k + 1], products)
      == Snapshots(order, data[..k], products) + [Snapshot(order, data[k], products[data[k].productId])]
  {
    assert data[..k + 1][..k] == data[..k];
  }

  /** The loop stops at the first unknown product, which is where `KnownPrefix` ends. */
  lemma KnownPrefixAt(data: seq<ItemData>, products: map<nat, ProductRow>, k: nat)
    requires k < |data| && AllKnown(data[..k], products) && data[k].productId !in products
    ensures KnownPrefix(data, products) == k
  {
  }
}
