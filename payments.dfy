/**
  The card gateway's side of an order: the session request body, and the
  three callbacks (success, fail, cancel) that find the order by its
  transaction id and rewrite its payment status.

  The gateway call itself and the confirmation mail are outside the model; the
  mail's outcome is a parameter.  Saving the order runs `update_reports`
  (a post-save signal), which the callback methods call after the save.
*/
module Payments {
  import opened Wrappers
  import opened Orders
  import Reports

  // ---------------------------------------------------------------------------
  // Session request body (`create_payment_session`)
  // ---------------------------------------------------------------------------

  datatype PostBody = PostBody(
    totalAmount: real, currency: string, tranId: string,
    successUrl: string, failUrl: string, cancelUrl: string, emiOption: int,
    cusName: string, cusEmail: string, cusPhone: string,
    cusAdd1: string, cusCity: string, cusCountry: string,
    shippingMethod: string, multiCardName: string, numOfItem: nat,
    productName: string, productCategory: string, productProfile: string)

  /** The body sent to the gateway: the caller's values, with the fixed currency, address and item count. */
  function SessionBody(amount: real, tranId: string, successUrl: string, failUrl: string, cancelUrl: string,
                       name: string, email: string, phone: string,
                       productName: string, productCategory: string): (b: PostBody)
    ensures b.totalAmount == amount && b.tranId == tranId
    ensures b.successUrl == successUrl && b.failUrl == failUrl && b.cancelUrl == cancelUrl
    ensures b.cusName == name && b.cusEmail == email && b.cusPhone == phone
    ensures b.productName == productName && b.productCategory == productCategory
    ensures b.currency == "BDT" && b.numOfItem == 1 && b.emiOption == 0
    ensures b.cusCity == "Dhaka" && b.cusCountry == "Bangladesh" && b.shippingMethod == "NO"
    ensures b.cusAdd1 == "Dhaka" && b.multiCardName == "" && b.productProfile == "general"
  {
    PostBody(amount, "BDT", tranId, successUrl, failUrl, cancelUrl, 0,
             name, email, phone, "Dhaka", "Dhaka", "Bangladesh",
             "NO", "", 1, productName, productCategory, "general")
  }

  // ---------------------------------------------------------------------------
  // Callbacks
  // ---------------------------------------------------------------------------

  datatype Callback = Success | Fail | Cancel

  /** The payment status each callback writes; every callback also sets the order status to "pending". */
  function PaymentStatusAfter(c: Callback): (s: string)
    ensures s in {"paid", "failed", "pending"}
  {
    match c
    case Success => "paid"
    case Fail => "failed"
    case Cancel => "pending"
  }

  datatype Response = Json(status: string, message: string) | Redirect(url: string) | ServerError

  const SuccessPage := "https://shasthomeds-online.onrender.com/payment-success?tran_id="

  /** How many orders carry the transaction id. */
  function MatchCount(orders: seq<Order>, t: string): (n: nat)
    ensures n <= |orders|
    ensures n == 0 <==> forall k :: 0 <= k < |orders| ==> orders[k].tranId != Some(t)
  {
    if orders == [] then 0
    else MatchCount(orders[..|orders| - 1], t) + (if orders[|orders| - 1].tranId == Some(t) then 1 else 0)
  }

  function FirstMatch(orders: seq<Order>, t: string): (k: nat)
    requires MatchCount(orders, t) > 0
    ensures k < |orders| && orders[k].tranId == Some(t)
  {
    if orders[0].tranId == Some(t) then 0
    else
      assert MatchCount(orders[1..], t) > 0 by {
        var j :| 0 <= j < |orders| && orders[j].tranId == Some(t);
        assert orders[1..][j - 1].tranId == Some(t);
      }
      1 + FirstMatch(orders[1..], t)
  }

  /** With exactly one match, the first match is the only order carrying the id. */
  lemma {:induction false} SingleMatch(orders: seq<Order>, t: string, j: nat)
    requires MatchCount(orders, t) == 1 && j < |orders| && orders[j].tranId == Some(t)
    ensures j == FirstMatch(orders, t)
  {
    var n := |orders| - 1;
    if orders[0].tranId == Some(t) {
      if j != 0 {
        TwoMatches(orders, t, 0, j);
      }
    } else {
      assert j > 0;
      OneLess(orders, t);
      assert orders[1..][j - 1].tranId == Some(t);
      SingleMatch(orders[1..], t, j - 1);
    }
  }

  /** Dropping a first order that does not match keeps the count. */
  lemma {:induction false} OneLess(orders: seq<Order>, t: string)
    requires orders != [] && orders[0].tranId != Some(t)
    ensures MatchCount(orders[1..], t) == MatchCount(orders, t)
  {
    var n := |orders| - 1;
    if n > 0 {
      assert orders[1..][..n - 1] == orders[..n][1..];
      OneLess(orders[..n], t);
      assert orders[1..][n - 1] == orders[n];
    } else {
      assert orders[..0] == [];
    }
  }

  /** Two distinct matching positions make the count at least two. */
  lemma {:induction false} TwoMatches(orders: seq<Order>, t: string, i: nat, j: nat)
    requires i < j < |orders| && orders[i].tranId == Some(t) && orders[j].tranId == Some(t)
    ensures MatchCount(orders, t) >= 2
  {
    var n := |orders| - 1;
    if j < n {
      TwoMatches(orders[..n], t, i, j);
    } else {
      assert orders[..n][i].tranId == Some(t);
    }
  }

  /** Which order a callback acts on. */
  datatype Target = TranIdMissing | NotFound | Several | Found(index: nat)

  /**
    `data.get("tran_id")`, then `Order.objects.get(tran_id=...)`: a missing or
    empty id is refused first; no match is "Order not found"; several matches
    raise `MultipleObjectsReturned`, which no handler catches.
  */
  function TargetOf(orders: seq<Order>, tranId: Option<string>): (r: Target)
    ensures r.Found? ==> tranId.Some? && r.index < |orders| && orders[r.index].tranId == tranId
    ensures r.Found? ==> forall k :: 0 <= k < |orders| && orders[k].tranId == tranId ==> k == r.index
    ensures r == TranIdMissing <==> tranId.None? || tranId.value == ""
    ensures r == NotFound <==> tranId.Some? && tranId.value != "" && forall k :: 0 <= k < |orders| ==> orders[k].tranId != tranId
  {
    if tranId.None? || tranId.value == "" then TranIdMissing
    else
      var n := MatchCount(orders, tranId.value);
      if n == 0 then NotFound
      else if n > 1 then Several
      else
        var k := FirstMatch(orders, tranId.value);
        assert forall j :: 0 <= j < |orders| && orders[j].tranId == tranId ==> j == k by {
          forall j | 0 <= j < |orders| && orders[j].tranId == tranId
            ensures j == k
          {
            SingleMatch(orders, tranId.value, j);
          }
        }
        Found(k)
  }

  /** The order table after a callback: only the matched order changes. */
  function AfterCallback(orders: seq<Order>, c: Callback, tranId: Option<string>): (r: seq<Order>)
    ensures |r| == |orders|
    ensures forall k :: 0 <= k < |orders| && !(TargetOf(orders, tranId) == Found(k)) ==> r[k] == orders[k]
    ensures TargetOf(orders, tranId).Found? ==>
      var k := TargetOf(orders, tranId).index;
      r[k] == orders[k].(paymentStatus := PaymentStatusAfter(c), status := "pending")
  {
    match TargetOf(orders, tranId)
    case Found(k) => orders[k := orders[k].(paymentStatus := PaymentStatusAfter(c), status := "pending")]
    case _ => orders
  }

  /** The callbacks never change transaction ids, so the same id finds the same order again. */
  lemma SameTarget(orders: seq<Order>, c: Callback, tranId: Option<string>)
    ensures TargetOf(AfterCallback(orders, c, tranId), tranId) == TargetOf(orders, tranId)
  {
    var after := AfterCallback(orders, c, tranId);
    assert forall k :: 0 <= k < |orders| ==> after[k].tranId == orders[k].tranId;
    if tranId.Some? && tranId.value != "" {
      SameCount(orders, after, tranId.value);
    }
  }

  lemma {:induction false} SameCount(a: seq<Order>, b: seq<Order>, t: string)
    requires |a| == |b| && forall k :: 0 <= k < |a| ==> a[k].tranId == b[k].tranId
    ensures MatchCount(a, t) == MatchCount(b, t)
    ensures MatchCount(a, t) > 0 ==> FirstMatch(a, t) == FirstMatch(b, t)
  {
    if a != [] {
      var n := |a| - 1;
      SameCount(a[..n], b[..n], t);
      if MatchCount(a, t) > 0 && a[0].tranId != Some(t) {
        OneLess(a, t);
        OneLess(b, t);
        SameCount(a[1..], b[1..], t);
      }
    }
  }

  /** Replaying a callback leaves the order table as the first call left it. */
  lemma ReplayIdempotent(orders: seq<Order>, c: Callback, tranId: Option<string>)
    ensures AfterCallback(AfterCallback(orders, c, tranId), c, tranId) == AfterCallback(orders, c, tranId)
  {
    LastCallbackWins(orders, c, c, tranId);
  }

  /**
    No handler looks at the status it overwrites: the last callback for a
    transaction decides, so a cancel after a success leaves the order pending.
  */
  lemma LastCallbackWins(orders: seq<Order>, first: Callback, second: Callback, tranId: Option<string>)
    ensures AfterCallback(AfterCallback(orders, first, tranId), second, tranId) == AfterCallback(orders, second, tranId)
  {
    SameTarget(orders, first, tranId);
  }

  /** The body of a handler's reply once the order is found and saved. */
  function FoundResponse(c: Callback, t: string, mailOk: bool): (r: Response)
    ensures !mailOk <==> r == ServerError
    ensures mailOk && c == Success ==> r.Redirect? && |r.url| >= |SuccessPage| && r.url[..|SuccessPage|] == SuccessPage && r.url[|SuccessPage|..] == t
    ensures mailOk && c != Success ==> r.Json? && (r.status == "cancelled" <==> c == Cancel)
  {
    if !mailOk then ServerError
    else match c
      case Success => Redirect(SuccessPage + t)
      case Fail => Json("failed", "Payment failed")
      case Cancel => Json("cancelled", "Payment cancelled")
  }

  class PaymentDesk {
    var orders: seq<Order>

    constructor (orders: seq<Order>)
      ensures this.orders == orders
    {
      this.orders := orders;
    }

    /**
      `payment_success` / `payment_fail` / `payment_cancel`.  The found order is
      saved (and the reports refreshed) before the mail is sent, so a failing
      mail answers 500 with the update already stored.
    */
    method Handle(c: Callback, tranId: Option<string>, mailOk: bool, items: seq<OrderItem>,
                  reports: Reports.ReportStore) returns (resp: Response)
      modifies this, reports
      ensures orders == AfterCallback(old(orders), c, tranId)
      ensures match TargetOf(old(orders), tranId)
        case TranIdMissing => resp == Json("failed", "tran_id missing")
        case NotFound => resp == Json("failed", "Order not found")
        case Several => resp == ServerError
        case Found(_) => resp == FoundResponse(c, tranId.value, mailOk)
      ensures !TargetOf(old(orders), tranId).Found? ==>
        reports.monthly == old(reports.monthly) && reports.yearly == old(reports.yearly)
      ensures TargetOf(old(orders), tranId).Found? ==>
        var k := TargetOf(old(orders), tranId).index;
        var d := orders[k].createdAt;
        (c != Success ==> reports.monthly == old(reports.monthly) && reports.yearly == old(reports.yearly))
        && (c == Success ==>
              reports.monthly == old(reports.monthly)[(d.year, d.month) := Reports.ReportFor(orders, items, Reports.MonthOf(d))]
              && reports.yearly == old(reports.yearly)[d.year := Reports.ReportFor(orders, items, Reports.Year(d.year))])
    {
      if tranId.None? || tranId.value == "" {
        return Json("failed", "tran_id missing");
      }
      var target := TargetOf(orders, tranId);
      if target == NotFound {
        return Json("failed", "Order not found");
      } else if target == Several {
        return ServerError;
      }
      var k := target.index;
      var order := orders[k];
      order := order.(paymentStatus := PaymentStatusAfter(c));
      order := order.(status := "pending");
      orders := orders[k := order];
      reports.UpdateReports(orders, items, k);
      resp := FoundResponse(c, tranId.value, mailOk);
    }
  }
}
