/**
  The checkout page (`Checkout.jsx`): the phone rule applied while typing, the
  postal-code check on confirm, the order request built from the cart page's
  state, and what the page does with the server's answer.  The request itself
  is not modelled.
*/
module Checkout {
  import opened Wrappers
  import opened Text
  import opened Js

  // ---------------------------------------------------------------------------
  // The phone field
  // ---------------------------------------------------------------------------

  /** `value.replace(/\D/g, "")`: the ASCII digits, in order. */
  function DigitsOf(s: string): (r: string)
    ensures |r| <= |s| && AllDigits(r)
    ensures AllDigits(s) ==> r == s
  {
    if s == [] then []
    else (if IsDigit(s[0]) then [s[0]] else []) + DigitsOf(s[1..])
  }

  /** The phone rule: digits only, a leading "0" added when missing, at most 11 characters. */
  function NormalPhone(value: string): string {
    var digits := DigitsOf(value);
    var prefixed := if |digits| > 0 && digits[0] != '0' then "0" + digits else digits;
    if |prefixed| <= 11 then prefixed else prefixed[..11]
  }

  /** `handleChange` for the phone field: the three reassignments of `value`. */
  method NormalisePhone(input: string) returns (value: string)
    ensures value == NormalPhone(input)
    ensures AllDigits(value) && |value| <= 11
    ensures value != "" ==> value[0] == '0'
    ensures value == "" <==> DigitsOf(input) == ""
  {
    value := DigitsOf(input);
    if |value| > 0 && value[0] != '0' {
      value := "0" + value;
    }
    if |value| > 11 {
      value := value[..11];
    }
  }

  /** Typing into the phone field again leaves a normalised number as it is. */
  lemma NormalPhoneIdempotent(input: string)
    ensures NormalPhone(NormalPhone(input)) == NormalPhone(input)
  {
    var digits := DigitsOf(input);
    var prefixed := if |digits| > 0 && digits[0] != '0' then "0" + digits else digits;
    assert AllDigits(prefixed);
    var r := NormalPhone(input);
    assert AllDigits(r);
    assert DigitsOf(r) == r;
  }

  /**
    `setUserInfo({ ...userInfo, [name]: value })`: the field named by the input
    takes the typed value (normalised for the phone); every other field stays.
  */
  function ChangeField(info: map<string, string>, name: string, value: string): (r: map<string, string>)
    ensures r.Keys == info.Keys + {name}
    ensures r[name] == if name == "phone" then NormalPhone(value) else value
    ensures forall k :: k in info && k != name ==> r[k] == info[k]
  {
    info[name := if name == "phone" then NormalPhone(value) else value]
  }

  // ---------------------------------------------------------------------------
  // Confirming the order
  // ---------------------------------------------------------------------------

  /** A cart line as the cart page passes it on. */
  datatype CartLine = CartLine(productId: Val, productName: Val, quantity: real, productPrice: real)

  /** The totals the cart page computed; the checkout copies them unchanged. */
  datatype Totals = Totals(totalPrice: real, totalNewPrice: real, totalDiscount: real, totalAmount: real)

  datatype Customer = Customer(name: string, email: string, phone: string, city: string, postalCode: string, address: string)

  /** The keys of one order line the page sends, as written. */
  function LineAsWritten(l: CartLine): (v: Val)
    ensures v.Obj? && v.fields.Keys == {"product_id", "productName", "quantity", "price", "subtotal"}
    ensures Get(v, "subtotal") == Num(l.quantity * l.productPrice)
  {
    Obj(map["product_id" := l.productId, "productName" := l.productName, "quantity" := Num(l.quantity),
            "price" := Num(l.productPrice), "subtotal" := Num(l.quantity * l.productPrice)])
  }

  /** The order line with the product name under the key the order serializer reads. */
  function Line(l: CartLine): (v: Val)
    ensures v.Obj? && RequiredLineKeys <= v.fields.Keys
    ensures Get(v, "product_id") == l.productId && Get(v, "product_name") == l.productName
    ensures Get(v, "quantity") == Num(l.quantity) && Get(v, "price") == Num(l.productPrice)
    ensures Get(v, "subtotal") == Num(l.quantity * l.productPrice)
  {
    Obj(map["product_id" := l.productId, "product_name" := l.productName, "quantity" := Num(l.quantity),
            "price" := Num(l.productPrice), "subtotal" := Num(l.quantity * l.productPrice)])
  }

  /** The two fields `OrderItemSerializer` declares itself, both required. */
  const RequiredLineKeys: set<string> := {"product_id", "product_name"}

  /** Every line the page sends as written lacks `product_name`, so the server refuses any non-empty order. */
  lemma LineAsWrittenMissesProductName(l: CartLine)
    ensures !(RequiredLineKeys <= LineAsWritten(l).fields.Keys)
  {
    assert "product_name" !in LineAsWritten(l).fields.Keys;
  }

  function Lines(items: seq<CartLine>): (r: seq<Val>)
    ensures |r| == |items| && forall k :: 0 <= k < |items| ==> r[k] == Line(items[k])
  {
    if items == [] then [] else [Line(items[0])] + Lines(items[1..])
  }

  datatype Payload = Payload(user: Val, paymentMethod: string, status: string, paymentStatus: string,
                             customer: Customer, items: seq<Val>, totals: Totals)

  /**
    `handleConfirm` up to the request: refused when the postal code is empty
    or blank; otherwise the request carries the customer fields as typed, one
    line per cart line with subtotal quantity × price, the cart page's totals,
    and "pending" as both statuses.
  */
  function ConfirmPayload(user: Val, paymentMethod: string, c: Customer, items: seq<CartLine>, t: Totals): (r: Option<Payload>)
    ensures r.None? <==> forall i :: 0 <= i < |c.postalCode| ==> IsJsSpace(c.postalCode[i])
    ensures r.Some? ==> r.value.customer == c && r.value.totals == t && r.value.user == user
    ensures r.Some? ==> r.value.paymentMethod == paymentMethod
    ensures r.Some? ==> r.value.status == "pending" && r.value.paymentStatus == "pending"
    ensures r.Some? ==> |r.value.items| == |items|
    ensures r.Some? ==> forall k :: 0 <= k < |items| ==>
      Get(r.value.items[k], "subtotal") == Num(items[k].quantity * items[k].productPrice)
  {
    TrimEmptyIffAllSpace(c.postalCode);
    if c.postalCode == "" || Trim(c.postalCode) == "" then None
    else Some(Payload(user, paymentMethod, "pending", "pending", c, Lines(items), t))
  }

  // ---------------------------------------------------------------------------
  // After the server answers
  // ---------------------------------------------------------------------------

  /** What the page does at the end of `handleConfirm`. */
  datatype Outcome =
    | PostalCodeAlert
    | ClearCartAndShowModal
    | ModalThenOrderFailedAlert
    | GoTo(url: Val)
    | GatewayMissingAlert
    | OrderFailedAlert
    | NoAction

  /** The names `cartSlice.js` exports (lines 8, 27, 45 and 128); there is no `clearCart`. */
  const CartSliceExports: set<string> := {"addToCart", "fetchCart", "removeFromCart", "default"}

  /**
    Cash on delivery clears the cart and opens the modal; card payment goes to
    `payment.GatewayPageURL` when the answer has one, and alerts otherwise; a
    missing `payment` object throws, and the catch alerts that the order failed.
  */
  function AfterOrder(paymentMethod: string, data: Val): (o: Outcome)
    ensures paymentMethod == "cod" ==> o == ClearCartAndShowModal
    ensures o.GoTo? <==>
      (paymentMethod == "card" && Get(data, "payment") !in {Undefined, Null}
       && Truthy(Get(Get(data, "payment"), "GatewayPageURL")))
    ensures o.GoTo? ==> o.url == Get(Get(data, "payment"), "GatewayPageURL")
    ensures paymentMethod != "cod" && paymentMethod != "card" ==> o == NoAction
  {
    if paymentMethod == "cod" then ClearCartAndShowModal
    else if paymentMethod == "card" then
      var payment := Get(data, "payment");
      if payment.Undefined? || payment.Null? then OrderFailedAlert
      else
        var url := Get(payment, "GatewayPageURL");
        if Truthy(url) then GoTo(url) else GatewayMissingAlert
    else NoAction
  }

  /**
    The cash-on-delivery branch as written: `clearCart` is imported from a
    module that does not export it.  Bound to undefined, the call throws after
    the modal has opened, the `catch` alerts that the order failed, and the
    cart is never cleared.  Card payment is unaffected.
  */
  function AfterOrderAsWritten(paymentMethod: string, data: Val): (o: Outcome)
    ensures paymentMethod == "cod" ==> o == ModalThenOrderFailedAlert
    ensures paymentMethod != "cod" ==> o == AfterOrder(paymentMethod, data)
  {
    if paymentMethod == "cod" && "clearCart" !in CartSliceExports then ModalThenOrderFailedAlert
    else AfterOrder(paymentMethod, data)
  }

  /** As written, a cash-on-delivery order that the server accepts leaves the cart full. */
  lemma CodAsWrittenKeepsCart(data: Val)
    ensures "clearCart" !in CartSliceExports
    ensures AfterOrder("cod", data) == ClearCartAndShowModal
    ensures AfterOrderAsWritten("cod", data) == ModalThenOrderFailedAlert
  {
  }

  /**
    `handleConfirm` as intended: the postal-code alert when there is no
    payload; otherwise the order is posted, `answer` is the server's reply
    (`None` when the request fails, which the `catch` reports) and the page
    reacts to it as `AfterOrder` says.
  */
  function HandleConfirm(user: Val, paymentMethod: string, c: Customer, items: seq<CartLine>, t: Totals,
                         answer: Option<Val>): (o: Outcome)
    ensures o == PostalCodeAlert <==> ConfirmPayload(user, paymentMethod, c, items, t).None?
    ensures ConfirmPayload(user, paymentMethod, c, items, t).Some? && answer.None? ==> o == OrderFailedAlert
    ensures ConfirmPayload(user, paymentMethod, c, items, t).Some? && answer.Some? ==>
      o == AfterOrder(paymentMethod, answer.value)
  {
    if ConfirmPayload(user, paymentMethod, c, items, t).None? then PostalCodeAlert
    else if answer.None? then OrderFailedAlert
    else AfterOrder(paymentMethod, answer.value)
  }

  /**
    `handleConfirm` as written: `axios` is used but never imported, so the
    post throws a ReferenceError before any request is sent, and every
    confirmation that passes the postal-code check ends in the failure alert.
  */
  function HandleConfirmAsWritten(user: Val, paymentMethod: string, c: Customer, items: seq<CartLine>, t: Totals): (o: Outcome)
    ensures o == PostalCodeAlert <==> ConfirmPayload(user, paymentMethod, c, items, t).None?
    ensures o != PostalCodeAlert ==> o == OrderFailedAlert
  {
    if ConfirmPayload(user, paymentMethod, c, items, t).None? then PostalCodeAlert else OrderFailedAlert
  }

  /**
    As written, no order is ever placed: where the intended page would act on
    an accepted cash-on-delivery order, the page as written only alerts.
  */
  lemma ConfirmAsWrittenNeverOrders(user: Val, c: Customer, items: seq<CartLine>, t: Totals, data: Val)
    requires ConfirmPayload(user, "cod", c, items, t).Some?
    ensures HandleConfirm(user, "cod", c, items, t, Some(data)) == ClearCartAndShowModal
    ensures HandleConfirmAsWritten(user, "cod", c, items, t) == OrderFailedAlert
  {
  }
}
