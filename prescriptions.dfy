/**
  Prescription requests and the carts they fill.  A request is pending,
  approved or rejected; approving one with `auto_add_to_cart` merges its items
  into the user's single active cart, one line per (cart, product).

  The database tables are fields of `Db`: carts are identified by their index
  in `carts`, cart lines by their index in `lines`.  The uniqueness constraints
  the database enforces (one active cart per user, one line per cart and
  product) are the invariant `Db.Valid`, which every operation keeps.
*/
module Prescriptions {
  import opened Wrappers
  import opened Text

  datatype Status = Pending | Approved | Rejected

  /** The two price columns of a product that the cart code reads. */
  datatype ProductPrice = ProductPrice(price: real, newPrice: real)

  datatype CartRow = CartRow(user: nat, isActive: bool)

  datatype CartLine = CartLine(cart: nat, product: nat, quantity: nat, unitPrice: real, request: Option<nat>)

  datatype Item = Item(product: nat, quantity: nat)

  datatype Request = Request(
    user: nat,
    status: Status,
    notes: Option<string>,
    adminNotes: Option<string>,
    adminComment: Option<string>,
    reviewer: Option<nat>,
    autoAddToCart: bool,
    items: seq<Item>,
    approvedAt: Option<int>,
    reviewedAt: Option<int>)

  // ---------------------------------------------------------------------------
  // Carts
  // ---------------------------------------------------------------------------

  /** The price a new cart line is created with: the selling price when it is positive, else the list price. */
  function UnitPrice(p: ProductPrice): (r: real)
    ensures r == p.newPrice || r == p.price
    ensures p.newPrice > 0.0 ==> r == p.newPrice
    ensures r > 0.0 <==> (p.newPrice > 0.0 || p.price > 0.0)
  {
    if p.newPrice > 0.0 then p.newPrice else p.price
  }

  /** The database allows at most one active cart per user. */
  predicate OneActivePerUser(carts: seq<CartRow>) {
    forall i, j :: 0 <= i < j < |carts| && carts[i].isActive && carts[j].isActive ==> carts[i].user != carts[j].user
  }

  /** The active cart of `user`, looked up from index `i` on. */
  function ActiveCartFrom(carts: seq<CartRow>, user: nat, i: nat): (r: Option<nat>)
    requires i <= |carts|
    ensures r.Some? ==> i <= r.value < |carts| && carts[r.value] == CartRow(user, true)
    ensures r.None? ==> forall k :: i <= k < |carts| ==> carts[k] != CartRow(user, true)
    decreases |carts| - i
  {
    if i == |carts| then None
    else if carts[i] == CartRow(user, true) then Some(i)
    else ActiveCartFrom(carts, user, i + 1)
  }

  function ActiveCart(carts: seq<CartRow>, user: nat): (r: Option<nat>)
    ensures r.Some? ==> r.value < |carts| && carts[r.value] == CartRow(user, true)
    ensures r.None? ==> forall k :: 0 <= k < |carts| ==> carts[k] != CartRow(user, true)
  {
    ActiveCartFrom(carts, user, 0)
  }

  predicate SameKey(line: CartLine, cart: nat, product: nat) {
    line.cart == cart && line.product == product
  }

  /** The database allows one line per cart and product. */
  predicate UniqueLines(lines: seq<CartLine>) {
    forall i, j :: 0 <= i < j < |lines| ==> !SameKey(lines[j], lines[i].cart, lines[i].product)
  }

  /** The line of `cart` for `product`, if there is one. */
  function FindLine(lines: seq<CartLine>, cart: nat, product: nat): (r: Option<nat>)
    ensures r.Some? ==> r.value < |lines| && SameKey(lines[r.value], cart, product)
    ensures r.None? ==> forall k :: 0 <= k < |lines| ==> !SameKey(lines[k], cart, product)
  {
    if lines == [] then None
    else if SameKey(lines[|lines| - 1], cart, product) then Some(|lines| - 1)
    else FindLine(lines[..|lines| - 1], cart, product)
  }

  /**
    One round of the approval loop: `get_or_create` the (cart, product) line;
    an existing line adds the item's quantity and points to the request but
    keeps its unit price, a missing line is created with the item's quantity.
  */
  function MergeLine(lines: seq<CartLine>, cart: nat, item: Item, unitPrice: real, req: nat): (r: seq<CartLine>)
    ensures UniqueLines(lines) ==> UniqueLines(r)
    ensures FindLine(lines, cart, item.product).None? ==>
      r == lines + [CartLine(cart, item.product, item.quantity, unitPrice, Some(req))]
    ensures FindLine(lines, cart, item.product).Some? ==>
      var i := FindLine(lines, cart, item.product).value;
      |r| == |lines| && r[i].quantity == lines[i].quantity + item.quantity
      && r[i].unitPrice == lines[i].unitPrice && r[i].request == Some(req)
      && SameKey(r[i], cart, item.product)
      && forall k :: 0 <= k < |lines| && k != i ==> r[k] == lines[k]
  {
    match FindLine(lines, cart, item.product)
    case None => lines + [CartLine(cart, item.product, item.quantity, unitPrice, Some(req))]
    case Some(i) => lines[i := lines[i].(quantity := lines[i].quantity + item.quantity, request := Some(req))]
  }

  predicate ItemsKnown(items: seq<Item>, products: map<nat, ProductPrice>) {
    forall k :: 0 <= k < |items| ==> items[k].product in products
  }

  /** The cart lines after the approval loop has merged every item, in order. */
  function MergeAll(lines: seq<CartLine>, cart: nat, items: seq<Item>, products: map<nat, ProductPrice>, req: nat): seq<CartLine>
    requires ItemsKnown(items, products)
  {
    if items == [] then lines
    else
      var last := items[|items| - 1];
      MergeLine(MergeAll(lines, cart, items[..|items| - 1], products, req), cart, last,
                UnitPrice(products[last.product]), req)
  }

  /** Merging a whole request keeps the lines unique per (cart, product). */
  lemma {:induction false} MergeAllKeepsUnique(lines: seq<CartLine>, cart: nat, items: seq<Item>, products: map<nat, ProductPrice>, req: nat)
    requires ItemsKnown(items, products)
    requires UniqueLines(lines)
    ensures UniqueLines(MergeAll(lines, cart, items, products, req))
  {
    if items != [] {
      MergeAllKeepsUnique(lines, cart, items[..|items| - 1], products, req);
    }
  }

  /**
    Merging a request into one cart leaves the lines of every other cart as
    they were and only ever adds lines after the existing ones.
  */
  lemma {:induction false} MergeAllOtherCarts(lines: seq<CartLine>, cart: nat, items: seq<Item>, products: map<nat, ProductPrice>, req: nat)
    requires ItemsKnown(items, products)
    ensures var r := MergeAll(lines, cart, items, products, req);
      |r| >= |lines|
      && (forall k :: 0 <= k < |lines| && lines[k].cart != cart ==> r[k] == lines[k])
      && (forall k :: |lines| <= k < |r| ==> r[k].cart == cart)
  {
    if items != [] {
      MergeAllOtherCarts(lines, cart, items[..|items| - 1], products, req);
    }
  }

  /** The merge of the first k+1 items is one more merged line on top of the first k. */
  lemma MergeAllStep(lines: seq<CartLine>, cart: nat, items: seq<Item>, products: map<nat, ProductPrice>, req: nat, k: nat)
    requires ItemsKnown(items, products) && k < |items|
    ensures ItemsKnown(items[..k], products) && ItemsKnown(items[..k + 1], products)
    ensures MergeAll(lines, cart, items[..k + 1], products, req)
      == MergeLine(MergeAll(lines, cart, items[..k], products, req), cart, items[k],
                   UnitPrice(products[items[k].product]), req)
  {
    assert items[..k + 1][..k] == items[..k];
  }

  /** Merging a line into an existing cart keeps every line pointing at an existing cart. */
  lemma MergeLineCarts(lines: seq<CartLine>, cart: nat, item: Item, unitPrice: real, req: nat, n: nat)
    requires cart < n && forall i :: 0 <= i < |lines| ==> lines[i].cart < n
    ensures var r := MergeLine(lines, cart, item, unitPrice, req);
      forall i :: 0 <= i < |r| ==> r[i].cart < n
  {
  }

  // ---------------------------------------------------------------------------
  // Request records
  // ---------------------------------------------------------------------------

  /** The request after the field updates of `approve`. */
  function ApprovedRecord(r: Request, reviewer: Option<nat>, adminNotes: Option<string>, now: int): (a: Request)
    ensures a.status == Approved && a.approvedAt == Some(now)
    ensures a.reviewer == (if reviewer.Some? then reviewer else r.reviewer)
    ensures a.adminNotes == (if adminNotes.Some? then adminNotes else r.adminNotes)
    ensures a.user == r.user && a.items == r.items && a.autoAddToCart == r.autoAddToCart
    ensures a.notes == r.notes && a.adminComment == r.adminComment && a.reviewedAt == r.reviewedAt
  {
    r.(status := Approved, approvedAt := Some(now),
       reviewer := if reviewer.Some? then reviewer else r.reviewer,
       adminNotes := if adminNotes.Some? then adminNotes else r.adminNotes)
  }

  /** The request after `reject`: rejected from any state, the approval time untouched. */
  function RejectedRecord(r: Request, reviewer: Option<nat>, adminNotes: Option<string>): (a: Request)
    ensures a.status == Rejected && a.approvedAt == r.approvedAt
    ensures a.reviewer == (if reviewer.Some? then reviewer else r.reviewer)
    ensures a.adminNotes == (if adminNotes.Some? then adminNotes else r.adminNotes)
    ensures a.user == r.user && a.items == r.items && a.autoAddToCart == r.autoAddToCart
    ensures a.notes == r.notes && a.adminComment == r.adminComment && a.reviewedAt == r.reviewedAt
  {
    r.(status := Rejected,
       reviewer := if reviewer.Some? then reviewer else r.reviewer,
       adminNotes := if adminNotes.Some? then adminNotes else r.adminNotes)
  }

  /** The fields a client submits to the request serializer; `None` means the field was not sent. */
  datatype Changes = Changes(status: Option<Status>, notes: Option<Option<string>>, adminComment: Option<Option<string>>)

  /** The user on whose behalf the serializer runs. */
  datatype Requester = Requester(isStaff: bool, role: string)

  predicate Privileged(who: Requester) {
    who.isStaff || who.role == "admin"
  }

  /**
    The serializer's field locking: for a requester who is neither staff nor
    an admin, `status` and `admin_comment` are read-only and so dropped from
    the validated data.  Without a request in the context nothing is locked.
  */
  function LockFields(c: Changes, requester: Option<Requester>): (v: Changes)
    ensures v.notes == c.notes
    ensures requester.Some? && !Privileged(requester.value) ==> v.status.None? && v.adminComment.None?
    ensures requester.None? || Privileged(requester.value) ==> v == c
  {
    if requester.Some? && !Privileged(requester.value) then Changes(None, c.notes, None) else c
  }

  /** The generic field update `super().update` performs with the validated data. */
  function ApplyChanges(r: Request, c: Changes): (a: Request)
    ensures a.status == c.status.GetOr(r.status)
    ensures a.notes == c.notes.GetOr(r.notes)
    ensures a.adminComment == c.adminComment.GetOr(r.adminComment)
    ensures a.(status := r.status, notes := r.notes, adminComment := r.adminComment) == r
  {
    r.(status := c.status.GetOr(r.status), notes := c.notes.GetOr(r.notes),
       adminComment := c.adminComment.GetOr(r.adminComment))
  }

  /** The requests of a queryset that are still pending, in queryset order. */
  function PendingOf(selected: seq<nat>, requests: map<nat, Request>): (r: seq<nat>)
    requires forall k :: 0 <= k < |selected| ==> selected[k] in requests
    ensures forall x :: x in r <==> x in selected && requests[x].status == Pending
    ensures forall k :: 0 <= k < |r| ==> r[k] in requests
    ensures |r| <= |selected|
    ensures (forall i, j :: 0 <= i < j < |selected| ==> selected[i] != selected[j]) ==>
      forall i, j :: 0 <= i < j < |r| ==> r[i] != r[j]
  {
    if selected == [] then []
    else
      var rest := PendingOf(selected[1..], requests);
      if requests[selected[0]].status == Pending then [selected[0]] + rest else rest
  }

  /** Filtering a concatenation is filtering each part: `PendingOf` keeps queryset order. */
  lemma {:induction false} PendingOfAppend(a: seq<nat>, b: seq<nat>, requests: map<nat, Request>)
    requires forall k :: 0 <= k < |a| ==> a[k] in requests
    requires forall k :: 0 <= k < |b| ==> b[k] in requests
    ensures forall k :: 0 <= k < |a + b| ==> (a + b)[k] in requests
    ensures PendingOf(a + b, requests) == PendingOf(a, requests) + PendingOf(b, requests)
  {
    if a == [] {
      assert a + b == b;
    } else {
      var head, rest := a[0], a[1..];
      assert (a + b)[0] == head && (a + b)[1..] == rest + b;
      PendingOfAppend(rest, b, requests);
      var kept := if requests[head].status == Pending then [head] else [];
      assert PendingOf(a + b, requests) == kept + PendingOf(rest + b, requests);
      assert PendingOf(a, requests) == kept + PendingOf(rest, requests);
      AppendAssoc(kept, PendingOf(rest, requests), PendingOf(b, requests));
    }
  }

  /** A one-request queryset keeps its request exactly when it is pending. */
  lemma PendingOfOne(x: nat, requests: map<nat, Request>)
    requires x in requests
    ensures PendingOf([x], requests) == if requests[x].status == Pending then [x] else []
  {
    assert [x][1..] == [];
  }

  // ---------------------------------------------------------------------------
  // The tables as one value
  // ---------------------------------------------------------------------------

  /** The three tables the request operations touch. */
  datatype Tables = Tables(carts: seq<CartRow>, lines: seq<CartLine>, requests: map<nat, Request>)

  /** The database constraints and foreign keys the operations rely on. */
  predicate TablesValid(t: Tables, products: map<nat, ProductPrice>) {
    OneActivePerUser(t.carts) && UniqueLines(t.lines)
    && (forall k :: 0 <= k < |t.lines| ==> t.lines[k].cart < |t.carts|)
    && (forall id :: id in t.requests ==> ItemsKnown(t.requests[id].items, products))
  }

  /**
    What `approve` does to the tables: an approved request is left alone;
    otherwise the request record is approved and, with `auto_add_to_cart`,
    the items are merged into the user's active cart, which is created at the
    end of the cart table when the user has none.
  */
  function ApproveTables(t: Tables, products: map<nat, ProductPrice>, id: nat,
                         reviewer: Option<nat>, adminNotes: Option<string>, now: int): (r: Tables)
    requires id in t.requests && ItemsKnown(t.requests[id].items, products)
    ensures r.requests.Keys == t.requests.Keys && r.requests == t.requests[id := r.requests[id]]
    ensures r.requests[id].status == Approved
    ensures forall k :: k in r.requests ==> r.requests[k].items == t.requests[k].items
    ensures t.requests[id].status == Approved ==> r == t
    ensures t.requests[id].status != Approved ==> r.requests[id] == ApprovedRecord(t.requests[id], reviewer, adminNotes, now)
    ensures r.carts == t.carts
      || (ActiveCart(t.carts, t.requests[id].user).None? && r.carts == t.carts + [CartRow(t.requests[id].user, true)])
    ensures !t.requests[id].autoAddToCart ==> r.carts == t.carts && r.lines == t.lines
  {
    var q := t.requests[id];
    if q.status == Approved then t
    else
      var requests := t.requests[id := ApprovedRecord(q, reviewer, adminNotes, now)];
      if !q.autoAddToCart then t.(requests := requests)
      else
        var active := ActiveCart(t.carts, q.user);
        var carts := if active.Some? then t.carts else t.carts + [CartRow(q.user, true)];
        var cart := if active.Some? then active.value else |t.carts|;
        Tables(carts, MergeAll(t.lines, cart, q.items, products, id), requests)
  }

  /** Merging into an existing cart keeps every line pointing at an existing cart. */
  lemma {:induction false} MergeAllCarts(lines: seq<CartLine>, cart: nat, items: seq<Item>, products: map<nat, ProductPrice>, req: nat, n: nat)
    requires ItemsKnown(items, products)
    requires cart < n && forall i :: 0 <= i < |lines| ==> lines[i].cart < n
    ensures forall i :: 0 <= i < |MergeAll(lines, cart, items, products, req)| ==>
      MergeAll(lines, cart, items, products, req)[i].cart < n
  {
    if items != [] {
      var last := items[|items| - 1];
      assert ItemsKnown(items[..|items| - 1], products);
      MergeAllCarts(lines, cart, items[..|items| - 1], products, req, n);
      MergeLineCarts(MergeAll(lines, cart, items[..|items| - 1], products, req), cart, last,
                     UnitPrice(products[last.product]), req, n);
    }
  }

  /** `approve` keeps the database constraints. */
  lemma ApproveTablesValid(t: Tables, products: map<nat, ProductPrice>, id: nat,
                           reviewer: Option<nat>, adminNotes: Option<string>, now: int)
    requires TablesValid(t, products) && id in t.requests
    ensures TablesValid(ApproveTables(t, products, id, reviewer, adminNotes, now), products)
  {
    var q := t.requests[id];
    if q.status != Approved && q.autoAddToCart {
      var active := ActiveCart(t.carts, q.user);
      var carts := if active.Some? then t.carts else t.carts + [CartRow(q.user, true)];
      var cart := if active.Some? then active.value else |t.carts|;
      MergeAllKeepsUnique(t.lines, cart, q.items, products, id);
      MergeAllCarts(t.lines, cart, q.items, products, id, |carts|);
      assert ApproveTables(t, products, id, reviewer, adminNotes, now).lines
        == MergeAll(t.lines, cart, q.items, products, id);
    }
  }

  /** The admin action `approve_selected` on the tables: `approve` for each id, in order. */
  function ApproveAll(t: Tables, products: map<nat, ProductPrice>, ids: seq<nat>, now: int): (r: Tables)
    requires forall k :: 0 <= k < |ids| ==> ids[k] in t.requests
    requires forall id :: id in t.requests ==> ItemsKnown(t.requests[id].items, products)
    ensures r.requests.Keys == t.requests.Keys
    ensures forall id :: id in r.requests ==> r.requests[id].items == t.requests[id].items
    decreases |ids|
  {
    if ids == [] then t
    else ApproveTables(ApproveAll(t, products, ids[..|ids| - 1], now), products, ids[|ids| - 1], None, None, now)
  }

  /** Approving any list of requests keeps the database constraints. */
  lemma {:induction false} ApproveAllValid(t: Tables, products: map<nat, ProductPrice>, ids: seq<nat>, now: int)
    requires TablesValid(t, products)
    requires forall k :: 0 <= k < |ids| ==> ids[k] in t.requests
    ensures TablesValid(ApproveAll(t, products, ids, now), products)
    decreases |ids|
  {
    if ids != [] {
      ApproveAllValid(t, products, ids[..|ids| - 1], now);
      ApproveTablesValid(ApproveAll(t, products, ids[..|ids| - 1], now), products, ids[|ids| - 1], None, None, now);
    }
  }

  /**
    Approving distinct pending requests one after the other leaves each of
    them with its approved record and every other request as it was.
  */
  lemma {:induction false} ApproveAllRecords(t: Tables, products: map<nat, ProductPrice>, ids: seq<nat>, now: int)
    requires forall k :: 0 <= k < |ids| ==> ids[k] in t.requests && t.requests[ids[k]].status == Pending
    requires forall id :: id in t.requests ==> ItemsKnown(t.requests[id].items, products)
    requires forall i, j :: 0 <= i < j < |ids| ==> ids[i] != ids[j]
    ensures var r := ApproveAll(t, products, ids, now);
      forall id :: id in r.requests ==>
        r.requests[id] == if id in ids then ApprovedRecord(t.requests[id], None, None, now) else t.requests[id]
    decreases |ids|
  {
    if ids != [] {
      var init, last := ids[..|ids| - 1], ids[|ids| - 1];
      ApproveAllRecords(t, products, init, now);
      var s := ApproveAll(t, products, init, now);
      var r := ApproveAll(t, products, ids, now);
      assert last !in init;
      assert s.requests[last] == t.requests[last];
      assert r == ApproveTables(s, products, last, None, None, now);
      assert r.requests == s.requests[last := ApprovedRecord(t.requests[last], None, None, now)];
      forall id | id in r.requests
        ensures r.requests[id] == if id in ids then ApprovedRecord(t.requests[id], None, None, now) else t.requests[id]
      {
        assert id in ids <==> id in init || id == last;
      }
    }
  }

  /**
    `approve_selected` on the tables: the selected requests that were pending
    carry their approved record, every other request is left as it was.
  */
  lemma ApproveSelectedRecords(t: Tables, products: map<nat, ProductPrice>, selected: seq<nat>, now: int)
    requires TablesValid(t, products)
    requires forall k :: 0 <= k < |selected| ==> selected[k] in t.requests
    requires forall i, j :: 0 <= i < j < |selected| ==> selected[i] != selected[j]
    ensures var r := ApproveAll(t, products, PendingOf(selected, t.requests), now);
      forall id :: id in r.requests ==>
        r.requests[id] == if id in selected && t.requests[id].status == Pending
                          then ApprovedRecord(t.requests[id], None, None, now) else t.requests[id]
  {
    var pending := PendingOf(selected, t.requests);
    ApproveAllRecords(t, products, pending, now);
  }

  /** Approving the first k+1 ids is approving one more after the first k. */
  lemma ApproveAllStep(t: Tables, products: map<nat, ProductPrice>, ids: seq<nat>, k: nat, now: int)
    requires k < |ids| && forall j :: 0 <= j < |ids| ==> ids[j] in t.requests
    requires forall id :: id in t.requests ==> ItemsKnown(t.requests[id].items, products)
    ensures ApproveAll(t, products, ids[..k + 1], now)
      == ApproveTables(ApproveAll(t, products, ids[..k], now), products, ids[k], None, None, now)
  {
    assert ids[..k + 1][..k] == ids[..k];
  }

  /** The record a bulk admin action leaves: approved or rejected without a reviewer or notes. */
  function Handled(r: Request, approve: bool, now: int): Request {
    if approve then ApprovedRecord(r, None, None, now) else RejectedRecord(r, None, None)
  }

  /** Handling one more request keeps "the handled ones carry the new record, the rest their old one". */
  lemma RecordStep(orig: map<nat, Request>, before: map<nat, Request>, after: map<nat, Request>,
                   done: seq<nat>, id0: nat, approve: bool, now: int)
    requires id0 in orig && id0 !in done && before.Keys == orig.Keys
    requires forall id :: id in before ==> before[id] == (if id in done then Handled(orig[id], approve, now) else orig[id])
    requires after == before[id0 := Handled(orig[id0], approve, now)]
    ensures after.Keys == orig.Keys
    ensures forall id :: id in after ==>
      after[id] == (if id in done + [id0] then Handled(orig[id], approve, now) else orig[id])
  {
  }

  // ---------------------------------------------------------------------------
  // The tables and the operations on them
  // ---------------------------------------------------------------------------

  class Db {
    var products: map<nat, ProductPrice>
    var carts: seq<CartRow>
    var lines: seq<CartLine>
    var requests: map<nat, Request>

    /** The database constraints and foreign keys the operations rely on. */
    ghost predicate Valid()
      reads this
    {
      TablesValid(Tables(carts, lines, requests), products)
    }

    constructor (products: map<nat, ProductPrice>)
      ensures Valid()
      ensures this.products == products && carts == [] && lines == [] && requests == map[]
    {
      this.products := products;
      carts := [];
      lines := [];
      requests := map[];
    }

    /** `Cart.get_or_create_active`: the user's active cart, created when there is none. */
    method GetOrCreateActive(user: nat) returns (cart: nat)
      requires Valid()
      modifies this`carts
      ensures Valid()
      ensures cart < |carts| && carts[cart] == CartRow(user, true)
      ensures old(ActiveCart(carts, user)).Some? ==>
        carts == old(carts) && cart == old(ActiveCart(carts, user)).value
      ensures old(ActiveCart(carts, user)).None? ==> carts == old(carts) + [CartRow(user, true)]
    {
      var found := ActiveCart(carts, user);
      if found.Some? {
        cart := found.value;
      } else {
        carts := carts + [CartRow(user, true)];
        cart := |carts| - 1;
      }
    }

    /**
      `PrescriptionRequest.approve`: nothing happens to an approved request;
      otherwise the request is approved and, when `auto_add_to_cart` is set,
      its items are merged into the user's active cart.
    */
    method Approve(id: nat, reviewer: Option<nat>, adminNotes: Option<string>, now: int)
      requires Valid() && id in requests
      modifies this`requests, this`carts, this`lines
      ensures Valid()
      ensures id in requests && requests[id].status == Approved
      ensures requests == old(requests)[id := requests[id]]
      ensures old(requests[id].status) == Approved ==>
        requests == old(requests) && carts == old(carts) && lines == old(lines)
      ensures old(requests[id].status) != Approved ==>
        requests == old(requests)[id := ApprovedRecord(old(requests[id]), reviewer, adminNotes, now)]
      ensures old(requests[id].status) != Approved && old(requests[id].autoAddToCart) ==>
        ActiveCart(carts, old(requests[id].user)).Some?
        && lines == MergeAll(old(lines), ActiveCart(carts, old(requests[id].user)).value,
                             old(requests[id].items), products, id)
      ensures !old(requests[id].autoAddToCart) ==> carts == old(carts) && lines == old(lines)
      ensures carts == old(carts)
        || (ActiveCart(old(carts), old(requests[id].user)).None?
            && carts == old(carts) + [CartRow(old(requests[id].user), true)])
      ensures Tables(carts, lines, requests)
        == ApproveTables(Tables(old(carts), old(lines), old(requests)), products, id, reviewer, adminNotes, now)
    {
      ghost var t0 := Tables(carts, lines, requests);
      var r := requests[id];
      if r.status == Approved {
        return;
      }
      requests := requests[id := ApprovedRecord(r, reviewer, adminNotes, now)];
      if r.autoAddToCart {
        ghost var active := ActiveCart(carts, r.user);
        var cart := GetOrCreateActive(r.user);
        AddItems(cart, r.items, id);
        ActiveCartUnique(carts, cart, r.user);
        assert cart == if active.Some? then active.value else |t0.carts|;
      }
      assert Tables(carts, lines, requests) == ApproveTables(t0, products, id, reviewer, adminNotes, now);
    }

    /** The `for item in self.items.all()` loop of `approve`. */
    method AddItems(cart: nat, items: seq<Item>, id: nat)
      requires Valid() && cart < |carts| && ItemsKnown(items, products)
      modifies this`lines
      ensures Valid()
      ensures lines == MergeAll(old(lines), cart, items, products, id)
    {
      var k := 0;
      while k < |items|
        invariant 0 <= k <= |items|
        invariant lines == MergeAll(old(lines), cart, items[..k], products, id)
        invariant UniqueLines(lines)
        invariant forall i :: 0 <= i < |lines| ==> lines[i].cart < |carts|
      {
        var item := items[k];
        var p := products[item.product];
        var unitPrice := if p.newPrice > 0.0 then p.newPrice else p.price;
        ghost var before := lines;
        MergeItem(cart, item, unitPrice, id);
        MergeLineCarts(before, cart, item, unitPrice, id, |carts|);
        MergeAllStep(old(lines), cart, items, products, id, k);
        k := k + 1;
      }
      assert items[..k] == items;
    }

    /**
      One round of the loop: `CartItem.objects.get_or_create` for the cart and
      product, then the quantity increase and the link to the request when
      the line already existed.
    */
    method MergeItem(cart: nat, item: Item, unitPrice: real, id: nat)
      modifies this`lines
      ensures lines == MergeLine(old(lines), cart, item, unitPrice, id)
    {
      var found := FindLine(lines, cart, item.product);
      if found.None? {
        lines := lines + [CartLine(cart, item.product, item.quantity, unitPrice, Some(id))];
      } else {
        var i := found.value;
        lines := lines[i := lines[i].(quantity := lines[i].quantity + item.quantity, request := Some(id))];
      }
    }

    /** `PrescriptionRequest.reject`: always rejects and never touches a cart. */
    method Reject(id: nat, reviewer: Option<nat>, adminNotes: Option<string>)
      requires Valid() && id in requests
      modifies this`requests
      ensures Valid()
      ensures requests == old(requests)[id := RejectedRecord(old(requests[id]), reviewer, adminNotes)]
      ensures id in requests && requests[id].status == Rejected
    {
      requests := requests[id := RejectedRecord(requests[id], reviewer, adminNotes)];
    }

    /**
      `PrescriptionRequestSerializer.update`: a status change stamps
      `reviewed_at`; a change to approved or rejected hands over to
      `approve` / `reject` and applies none of the other submitted fields;
      every other update applies the validated fields.
    */
    method Update(id: nat, c: Changes, now: int)
      requires Valid() && id in requests
      modifies this`requests, this`carts, this`lines
      ensures Valid() && id in requests && requests == old(requests)[id := requests[id]]
      ensures var was := old(requests[id]);
        var newStatus := c.status.GetOr(was.status);
        var stamped := if newStatus != was.status then was.(reviewedAt := Some(now)) else was;
        (newStatus != was.status && newStatus == Approved ==>
          requests[id] == ApprovedRecord(stamped, None, None, now)
          && Tables(carts, lines, requests)
             == ApproveTables(Tables(old(carts), old(lines), old(requests)[id := stamped]), products, id, None, None, now))
        && (newStatus != was.status && newStatus == Rejected ==>
          requests == old(requests)[id := RejectedRecord(stamped, None, None)]
          && carts == old(carts) && lines == old(lines))
        && (newStatus == was.status || newStatus == Pending ==>
          requests == old(requests)[id := ApplyChanges(stamped, c)]
          && carts == old(carts) && lines == old(lines))
    {
      var inst := requests[id];
      var newStatus := c.status.GetOr(inst.status);
      if newStatus != inst.status {
        inst := inst.(reviewedAt := Some(now));
        requests := requests[id := inst];
        if newStatus == Approved {
          Approve(id, None, None, now);
          return;
        } else if newStatus == Rejected {
          Reject(id, None, None);
          return;
        }
      }
      requests := requests[id := ApplyChanges(inst, c)];
    }

    /**
      The admin action `approve_selected`: approve the selected requests that
      are still pending, one after the other in queryset order.
    */
    method ApproveSelected(selected: seq<nat>, now: int)
      requires Valid()
      requires forall k :: 0 <= k < |selected| ==> selected[k] in requests
      requires forall i, j :: 0 <= i < j < |selected| ==> selected[i] != selected[j]
      modifies this`requests, this`carts, this`lines
      ensures Valid() && requests.Keys == old(requests).Keys
      ensures forall id :: id in requests ==>
        requests[id] == (if id in selected && old(requests[id].status) == Pending
                         then ApprovedRecord(old(requests[id]), None, None, now)
                         else old(requests[id]))
      ensures Tables(carts, lines, requests)
        == ApproveAll(Tables(old(carts), old(lines), old(requests)), products, PendingOf(selected, old(requests)), now)
    {
      ghost var t0 := Tables(carts, lines, requests);
      var pending := PendingOf(selected, requests);
      var k := 0;
      while k < |pending|
        invariant 0 <= k <= |pending|
        invariant Valid() && Tables(carts, lines, requests) == ApproveAll(t0, products, pending[..k], now)
      {
        ApproveAllStep(t0, products, pending, k, now);
        Approve(pending[k], None, None, now);
        k := k + 1;
      }
      assert pending[..k] == pending;
      ApproveSelectedRecords(t0, products, selected, now);
    }

    /** The admin action `reject_selected`: reject the selected requests that are still pending. */
    method RejectSelected(selected: seq<nat>)
      requires Valid()
      requires forall k :: 0 <= k < |selected| ==> selected[k] in requests
      requires forall i, j :: 0 <= i < j < |selected| ==> selected[i] != selected[j]
      modifies this`requests
      ensures Valid() && requests.Keys == old(requests).Keys
      ensures forall id :: id in requests ==>
        requests[id] == (if id in selected && old(requests[id].status) == Pending
                         then RejectedRecord(old(requests[id]), None, None)
                         else old(requests[id]))
    {
      var pending := PendingOf(selected, requests);
      var k := 0;
      while k < |pending|
        invariant 0 <= k <= |pending|
        invariant Valid() && requests.Keys == old(requests).Keys
        invariant forall id :: id in pending ==> id in old(requests)
        invariant forall id :: id in requests ==>
          requests[id] == (if id in pending[..k] then Handled(old(requests[id]), false, 0) else old(requests[id]))
      {
        ghost var before := requests;
        DistinctPrefix(pending, k);
        Reject(pending[k], None, None);
        RecordStep(old(requests), before, requests, pending[..k], pending[k], false, 0);
        TakeStep(pending, k);
        k := k + 1;
      }
      assert pending[..k] == pending;
    }
  }

  /** With one active cart per user, the active cart found is the one just obtained. */
  lemma ActiveCartUnique(carts: seq<CartRow>, cart: nat, user: nat)
    requires OneActivePerUser(carts) && cart < |carts| && carts[cart] == CartRow(user, true)
    ensures ActiveCart(carts, user) == Some(cart)
  {
    var r := ActiveCart(carts, user);
    assert r.Some? ==> carts[r.value].isActive && carts[r.value].user == user;
  }
}
