/**
  The patient's appointment page (`DoctorsAppoinment.jsx`): how each slot
  button of the chosen doctor is coloured and whether it can be pressed, and
  the list of the patient's own appointments.  The signed-in user is a value
  that may be `null`; reading `user.id` on it throws, which the model
  returns as `None`.
*/
module AppointmentPage {
  import opened Wrappers
  import opened Js
  import Text

  /** The fields of an appointment the page reads. */
  datatype Booking = Booking(date: string, timeSlot: string, status: string, patient: Val)

  datatype Color = Success | Secondary | Warning | Error
  datatype Icon = PulsingClock | Clock | CheckCircle

  datatype Style = Style(color: Color, disabled: bool, icon: Icon)

  /** `user.id`; a missing user throws. */
  function UserId(user: Val): (r: Option<Val>)
    ensures r.Some? <==> user != Null && user != Undefined
  {
    if user.Null? || user.Undefined? then None else Some(Get(user, "id"))
  }

  predicate SameSlot(b: Booking, date: string, time: string) {
    b.date == date && b.timeSlot == time
  }

  /** `find`: the index of the first appointment on that date and slot. */
  function FirstBooking(appts: seq<Booking>, date: string, time: string): (r: Option<nat>)
    ensures r.Some? ==> r.value < |appts| && SameSlot(appts[r.value], date, time)
    ensures r.Some? ==> forall k :: 0 <= k < r.value ==> !SameSlot(appts[k], date, time)
    ensures r.None? ==> forall k :: 0 <= k < |appts| ==> !SameSlot(appts[k], date, time)
  {
    if appts == [] then None
    else if SameSlot(appts[0], date, time) then Some(0)
    else match FirstBooking(appts[1..], date, time)
      case None => None
      case Some(i) => Some(i + 1)
  }

  /** The style of one slot, as a function of the first appointment holding it. */
  function SlotStyle(appts: seq<Booking>, date: string, time: string, user: Val): (s: Option<Style>)
    ensures s.Some? ==> (s.value.icon == PulsingClock <==> !s.value.disabled)
    ensures s.Some? ==> (s.value.icon == Clock <==> s.value.color == Secondary)
    ensures s.Some? && s.value.color == Warning ==> s.value.icon == CheckCircle && s.value.disabled
  {
    match FirstBooking(appts, date, time)
    case None => Some(Style(Success, false, PulsingClock))
    case Some(i) =>
      var b := appts[i];
      if b.status == "cancelled" then Some(Style(Success, false, PulsingClock))
      else match UserId(user)
        case None => None
        case Some(id) =>
          if StrictEq(b.patient, id) then
            Some(Style(if b.status == "pending" then Secondary else Warning, true,
                       if b.status == "pending" then Clock else CheckCircle))
          else Some(Style(Error, true, CheckCircle))
  }

  /** `getSlotStyle(date, time)`: start from a free slot and overwrite the style as the first match dictates. */
  method GetSlotStyle(appts: seq<Booking>, date: string, time: string, user: Val) returns (r: Option<Style>)
    ensures r == SlotStyle(appts, date, time, user)
  {
    var slotBooked := FirstBooking(appts, date, time);
    var color := Success;
    var disabled := false;
    var icon := PulsingClock;
    if slotBooked.Some? {
      var b := appts[slotBooked.value];
      if b.status == "cancelled" {
        color := Success;
      } else {
        var id := UserId(user);
        if id.None? {
          return None;
        }
        if StrictEq(b.patient, id.value) {
          color := if b.status == "pending" then Secondary else Warning;
          icon := if b.status == "pending" then Clock else CheckCircle;
          disabled := true;
        } else {
          color := Error;
          icon := CheckCircle;
          disabled := true;
        }
      }
    }
    r := Some(Style(color, disabled, icon));
  }

  /**
    What the style means: a slot can be pressed exactly when no appointment
    holds it or the first one holding it is cancelled; later appointments on
    the same slot are never looked at.
  */
  lemma SlotStyleMeaning(appts: seq<Booking>, date: string, time: string, user: Val)
    ensures var s := SlotStyle(appts, date, time, user);
      var first := FirstBooking(appts, date, time);
      s.None? <==> (first.Some? && appts[first.value].status != "cancelled" && UserId(user).None?)
    ensures var s := SlotStyle(appts, date, time, user);
      var first := FirstBooking(appts, date, time);
      s.Some? ==> (!s.value.disabled <==> first.None? || appts[first.value].status == "cancelled")
    ensures var s := SlotStyle(appts, date, time, user);
      s.Some? && !s.value.disabled ==> s.value.color == Success
    ensures var s := SlotStyle(appts, date, time, user);
      var first := FirstBooking(appts, date, time);
      s.Some? && s.value.disabled ==>
        (s.value.color == Error <==> !StrictEq(appts[first.value].patient, UserId(user).value))
  {
  }

  /** The user's own pending appointment shows "secondary"; another patient's shows "error". */
  lemma OwnAndOthers(b: Booking, rest: seq<Booking>, user: Val)
    requires user.Obj? && b.status == "pending"
    ensures StrictEq(b.patient, Get(user, "id")) ==>
      SlotStyle([b] + rest, b.date, b.timeSlot, user) == Some(Style(Secondary, true, Clock))
    ensures !StrictEq(b.patient, Get(user, "id")) ==>
      SlotStyle([b] + rest, b.date, b.timeSlot, user) == Some(Style(Error, true, CheckCircle))
  {
    assert FirstBooking([b] + rest, b.date, b.timeSlot) == Some(0);
  }

  /** A cancelled appointment ahead of a confirmed one on the same slot hides it. */
  lemma CancelledFirstHidesLater(cancelled: Booking, confirmed: Booking, user: Val)
    requires cancelled.status == "cancelled" && confirmed.status == "confirmed"
    requires SameSlot(confirmed, cancelled.date, cancelled.timeSlot)
    ensures SlotStyle([cancelled, confirmed], cancelled.date, cancelled.timeSlot, user)
      == Some(Style(Success, false, PulsingClock))
  {
    assert FirstBooking([cancelled, confirmed], cancelled.date, cancelled.timeSlot) == Some(0);
  }

  /** The listing: the appointments whose patient is the signed-in user, in order. */
  function Mine(appts: seq<Booking>, user: Val): (r: Option<seq<Booking>>)
    ensures r.None? <==> appts != [] && UserId(user).None?
    ensures r.Some? ==> forall b :: b in r.value <==> b in appts && StrictEq(b.patient, UserId(user).value)
    ensures r.Some? ==> |r.value| <= |appts|
  {
    if appts == [] then Some([])
    else match UserId(user)
      case None => None
      case Some(id) => Some(OwnedBy(appts, id))
  }

  function OwnedBy(appts: seq<Booking>, id: Val): (r: seq<Booking>)
    ensures |r| <= |appts|
    ensures forall b :: b in r <==> b in appts && StrictEq(b.patient, id)
  {
    if appts == [] then []
    else (if StrictEq(appts[0].patient, id) then [appts[0]] else []) + OwnedBy(appts[1..], id)
  }

  /** The user's bookings keep the list order: filtering a concatenation is filtering each part. */
  lemma {:induction false} OwnedByAppend(a: seq<Booking>, b: seq<Booking>, id: Val)
    ensures OwnedBy(a + b, id) == OwnedBy(a, id) + OwnedBy(b, id)
  {
    if a == [] {
      assert a + b == b;
    } else {
      var head, rest := a[0], a[1..];
      assert (a + b)[0] == head && (a + b)[1..] == rest + b;
      OwnedByAppend(rest, b, id);
      var kept := if StrictEq(head.patient, id) then [head] else [];
      assert OwnedBy(a + b, id) == kept + OwnedBy(rest + b, id);
      assert OwnedBy(a, id) == kept + OwnedBy(rest, id);
      Text.AppendAssoc(kept, OwnedBy(rest, id), OwnedBy(b, id));
    }
  }

  /** A one-element list is kept exactly when its element passes the filter. */
  lemma OwnedByOne(x: Booking, id: Val)
    ensures OwnedBy([x], id) == if StrictEq(x.patient, id) then [x] else []
  {
    assert [x][1..] == [];
  }
}
