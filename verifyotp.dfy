/**
  The one-time-code form (`VerifyOTP.jsx`): six one-character boxes, a filter
  on what a box accepts, and the length check made before the code is sent.
  The request, the toasts and the focus move are not modelled.
*/
module OtpForm {
  import opened Wrappers
  import opened Text
  import Js

  const Boxes: nat := 6

  /**
    `!isNaN(value) && value.length <= 1`.  `isNaN` converts its argument with
    `Number`, so the empty string and a white-space character pass as 0 and a
    digit as its value; every other single character is not a number.
  */
  predicate Accepted(value: string): (ok: bool)
    ensures ok <==> value == "" || (|value| == 1 && (IsDigit(value[0]) || IsJsSpace(value[0])))
  {
    assert |value| == 1 ==> (AllDigits(value) <==> IsDigit(value[0]));
    !Js.StringToNumber(value).NaN? && |value| <= 1
  }

  /** Six boxes, each holding something the filter let through. */
  predicate Form(otp: seq<string>) {
    |otp| == Boxes && forall k :: 0 <= k < |otp| ==> Accepted(otp[k])
  }

  /** The initial state: six empty boxes. */
  const Empty: seq<string> := ["", "", "", "", "", ""]

  /**
    `handleChange(index, value)`: an accepted value replaces box `index` in a
    copy of the boxes; anything else leaves the boxes as they were.
  */
  function ChangeBox(otp: seq<string>, index: nat, value: string): (r: seq<string>)
    requires index < |otp|
    ensures |r| == |otp|
    ensures Accepted(value) ==> r[index] == value
    ensures !Accepted(value) ==> r == otp
    ensures forall k :: 0 <= k < |otp| && k != index ==> r[k] == otp[k]
    ensures Form(otp) ==> Form(r)
  {
    if Accepted(value) then otp[index := value] else otp
  }

  lemma EmptyIsForm()
    ensures Form(Empty)
  {
  }

  /** `otp.join("")`. */
  function Joined(otp: seq<string>): string {
    if otp == [] then [] else otp[0] + Joined(otp[1..])
  }

  /** The number of boxes that hold a character. */
  function Filled(otp: seq<string>): (n: nat)
    ensures n <= |otp|
  {
    if otp == [] then 0 else (if otp[0] != "" then 1 else 0) + Filled(otp[1..])
  }

  /** With one character at most per box, the joined code is as long as the number of filled boxes. */
  lemma {:induction false} JoinedLength(otp: seq<string>)
    requires forall k :: 0 <= k < |otp| ==> |otp[k]| <= 1
    ensures |Joined(otp)| == Filled(otp)
  {
    if otp != [] {
      JoinedLength(otp[1..]);
    }
  }

  /** Only as many filled boxes as boxes when every box is filled. */
  lemma {:induction false} FilledAll(otp: seq<string>)
    ensures Filled(otp) == |otp| <==> forall k :: 0 <= k < |otp| ==> otp[k] != ""
  {
    if otp != [] {
      FilledAll(otp[1..]);
      if Filled(otp) == |otp| {
        forall k | 0 <= k < |otp| ensures otp[k] != "" {
          if k > 0 { assert otp[k] == otp[1..][k - 1]; }
        }
      }
    }
  }

  /** Each character of the joined code is a character some box accepted. */
  lemma {:induction false} JoinedChars(otp: seq<string>)
    requires forall k :: 0 <= k < |otp| ==> Accepted(otp[k])
    ensures forall i :: 0 <= i < |Joined(otp)| ==> IsDigit(Joined(otp)[i]) || IsJsSpace(Joined(otp)[i])
  {
    if otp != [] {
      JoinedChars(otp[1..]);
    }
  }

  /** `handleVerify` up to the request: the joined code, or `None` when it is not six characters long. */
  function VerifyCode(otp: seq<string>): (r: Option<string>)
    ensures r.Some? <==> |Joined(otp)| == Boxes
    ensures r.Some? ==> r.value == Joined(otp)
  {
    var code := Joined(otp);
    if |code| != Boxes then None else Some(code)
  }

  /**
    On the form, the code is sent exactly when no box is empty, and what is
    sent is made of digits and white space only.
  */
  lemma VerifyNeedsEveryBox(otp: seq<string>)
    requires Form(otp)
    ensures VerifyCode(otp).Some? <==> forall k :: 0 <= k < |otp| ==> otp[k] != ""
    ensures VerifyCode(otp).Some? ==>
      forall i :: 0 <= i < Boxes ==> IsDigit(VerifyCode(otp).value[i]) || IsJsSpace(VerifyCode(otp).value[i])
  {
    JoinedLength(otp);
    FilledAll(otp);
    JoinedChars(otp);
  }

  /** A space typed into every box passes both the box filter and the length check. */
  lemma SpacesPass()
    ensures Accepted(" ")
    ensures VerifyCode([" ", " ", " ", " ", " ", " "]) == Some("      ")
  {
    assert Joined([" ", " ", " ", " ", " ", " "]) == "      ";
  }
}
