/**
  Doctor availability (`get_available_time_slots`): every "HH:MM-HH:MM" range
  of a doctor's `available_time` is cut into 20-minute slots from its start,
  strictly before its end, leaving out the slots already held by a pending or
  confirmed appointment of that doctor on that date.

  Times are minutes after midnight.  A malformed range makes the Python code
  raise (`ValueError` from the tuple unpacking or from `strptime`), which the
  model returns as `Err`.
*/
module Slots {
  import opened Wrappers
  import opened Text

  const SlotMinutes: nat := 20

  /** `%H`: one or two ASCII digits worth at most 23. */
  function ParseHour(h: string): (r: Option<nat>)
    ensures r.Some? <==> 1 <= |h| <= 2 && AllDigits(h) && ParseDigits(h) <= 23
    ensures r.Some? ==> r.value == ParseDigits(h) && r.value < 24
  {
    if 1 <= |h| <= 2 && AllDigits(h) && ParseDigits(h) <= 23 then Some(ParseDigits(h)) else None
  }

  /** `%M`: one or two ASCII digits worth at most 59. */
  function ParseMinute(m: string): (r: Option<nat>)
    ensures r.Some? <==> 1 <= |m| <= 2 && AllDigits(m) && ParseDigits(m) <= 59
    ensures r.Some? ==> r.value == ParseDigits(m) && r.value < 60
  {
    if 1 <= |m| <= 2 && AllDigits(m) && ParseDigits(m) <= 59 then Some(ParseDigits(m)) else None
  }

  function FirstIndex(s: string, c: char): (r: Option<nat>)
    ensures r.Some? ==> r.value < |s| && s[r.value] == c && c !in s[..r.value]
    ensures r.None? ==> c !in s
  {
    if s == [] then None
    else if s[0] == c then Some(0)
    else match FirstIndex(s[1..], c)
      case None => None
      case Some(i) => assert s[..i + 1] == [s[0]] + s[1..][..i]; Some(i + 1)
  }

  /** `datetime.strptime(s, "%H:%M")`, as minutes after midnight. */
  function ParseTime(s: string): (r: Option<nat>)
    ensures r.Some? ==> r.value < 24 * 60
  {
    match FirstIndex(s, ':')
    case None => None
    case Some(i) =>
      match (ParseHour(s[..i]), ParseMinute(s[i + 1..]))
      case (Some(h), Some(m)) => Some(60 * h + m)
      case _ => None
  }

  /** `strftime("%H:%M")` of a time of day. */
  function FormatTime(t: nat): (s: string)
    requires t < 24 * 60
    ensures |s| == 5 && s[2] == ':'
  {
    Pad2(t / 60) + ":" + Pad2(t % 60)
  }

  /** Formatting a time of day and parsing it back gives the time. */
  lemma FormatParseRoundTrip(t: nat)
    requires t < 24 * 60
    ensures ParseTime(FormatTime(t)) == Some(t)
  {
    var s := FormatTime(t);
    var hh, mm := Pad2(t / 60), Pad2(t % 60);
    Pad2Parse(t / 60);
    Pad2Parse(t % 60);
    assert s[..2] == hh && s[3..] == mm;
    assert ':' !in s[..2];
    assert FirstIndex(s, ':') == Some(2) by {
      assert s[0] != ':' && s[1] != ':' && s[2] == ':';
      assert s[..2] == [s[0], s[1]];
    }
  }

  /** `start_str, end_str = time_range.split("-")` followed by the two `strptime` calls. */
  function ParseRange(range: string): (r: Result<(nat, nat), string>)
    ensures r.Ok? <==> (|Split(range, '-')| == 2
      && ParseTime(Split(range, '-')[0]).Some? && ParseTime(Split(range, '-')[1]).Some?)
    ensures r.Ok? ==> r.value == (ParseTime(Split(range, '-')[0]).value, ParseTime(Split(range, '-')[1]).value)
  {
    var parts := Split(range, '-');
    if |parts| != 2 then Err("ValueError: not exactly two values to unpack")
    else match (ParseTime(parts[0]), ParseTime(parts[1]))
      case (Some(a), Some(b)) => Ok((a, b))
      case _ => Err("ValueError: time data does not match format '%H:%M'")
  }

  /** The slots of one range from `current` on: the 20-minute steps before `end` that nobody holds. */
  function RangeSlots(current: nat, end: nat, booked: seq<string>): (r: seq<string>)
    requires end <= 24 * 60
    ensures forall k :: 0 <= k < |r| ==> r[k] !in booked
    ensures current >= end ==> r == []
    decreases end - current
  {
    if current >= end then []
    else (if FormatTime(current) in booked then [] else [FormatTime(current)])
         + RangeSlots(current + SlotMinutes, end, booked)
  }

  /** A step of the grid that starts at `current`, strictly before `end`. */
  predicate OnGrid(current: nat, end: nat, t: nat) {
    current <= t < end && (t - current) % 20 == 0
  }

  /** Stepping the start forward by one slot keeps the later grid points. */
  lemma OnGridStep(current: nat, end: nat, t: nat)
    requires t != current
    ensures OnGrid(current, end, t) <==> OnGrid(current + SlotMinutes, end, t)
  {
    if OnGrid(current, end, t) {
      assert t >= current + 20;
      assert (t - current) % 20 == (t - (current + 20)) % 20;
    }
    if OnGrid(current + SlotMinutes, end, t) {
      assert (t - current) % 20 == (t - (current + 20)) % 20;
    }
  }

  /** One step of the grid: the first candidate, then the slots of the rest of the range. */
  lemma RangeSlotsUnfold(current: nat, end: nat, booked: seq<string>)
    requires current < end <= 24 * 60
    ensures RangeSlots(current, end, booked)
      == (if FormatTime(current) in booked then [] else [FormatTime(current)]) + RangeSlots(current + SlotMinutes, end, booked)
  {
  }

  /** An offered slot is the free first candidate or is offered by the rest of the range. */
  lemma HeadOrRest(current: nat, end: nat, booked: seq<string>, s: string)
    requires end <= 24 * 60 && s in RangeSlots(current, end, booked)
    ensures current < end
    ensures (s == FormatTime(current) && s !in booked) || s in RangeSlots(current + SlotMinutes, end, booked)
  {
    RangeSlotsUnfold(current, end, booked);
  }

  /** An offered slot is free and is the rendering of a grid step of the range. */
  lemma {:induction false} RangeSlotWitness(current: nat, end: nat, booked: seq<string>, s: string) returns (t: nat)
    requires end <= 24 * 60 && s in RangeSlots(current, end, booked)
    ensures s !in booked && OnGrid(current, end, t) && FormatTime(t) == s
    decreases end - current
  {
    HeadOrRest(current, end, booked, s);
    if s in RangeSlots(current + SlotMinutes, end, booked) {
      t := RangeSlotWitness(current + SlotMinutes, end, booked, s);
      OnGridStep(current, end, t);
    } else {
      t := current;
    }
  }

  /** The rendering of every free grid step of the range is offered. */
  lemma {:induction false} RangeSlotListed(current: nat, end: nat, booked: seq<string>, t: nat)
    requires end <= 24 * 60 && OnGrid(current, end, t) && FormatTime(t) !in booked
    ensures FormatTime(t) in RangeSlots(current, end, booked)
    decreases end - current
  {
    RangeSlotsUnfold(current, end, booked);
    var rest := RangeSlots(current + SlotMinutes, end, booked);
    if t != current {
      OnGridStep(current, end, t);
      RangeSlotListed(current + SlotMinutes, end, booked, t);
      assert FormatTime(t) in rest;
    } else {
      assert FormatTime(current) !in booked;
      assert FormatTime(t) in [FormatTime(current)];
    }
  }

  /**
    The slots of a range are exactly the free renderings of the 20-minute steps
    from its start, before its end.
  */
  lemma RangeSlotsMembers(current: nat, end: nat, booked: seq<string>, s: string)
    requires end <= 24 * 60
    ensures s in RangeSlots(current, end, booked) <==> (s !in booked
      && exists t: nat :: OnGrid(current, end, t) && FormatTime(t) == s)
  {
    if s in RangeSlots(current, end, booked) {
      var t := RangeSlotWitness(current, end, booked, s);
    }
    if s !in booked && exists t: nat :: OnGrid(current, end, t) && FormatTime(t) == s {
      var t: nat :| OnGrid(current, end, t) && FormatTime(t) == s;
      RangeSlotListed(current, end, booked, t);
    }
  }

  /** A range whose end is not after its start contributes nothing. */
  lemma EmptyRange(start: nat, end: nat, booked: seq<string>)
    requires end <= 24 * 60 && end <= start
    ensures RangeSlots(start, end, booked) == []
  {
  }

  /** The whole slot list for the ranges in order, or the error raised by the first malformed range. */
  function SlotsOf(ranges: seq<string>, booked: seq<string>): (r: Result<seq<string>, string>)
    ensures r.Err? <==> exists i :: 0 <= i < |ranges| && ParseRange(ranges[i]).Err?
    ensures r.Ok? ==> forall k :: 0 <= k < |r.value| ==> r.value[k] !in booked
  {
    if ranges == [] then Ok([])
    else
      assert forall i :: 0 <= i < |ranges| - 1 ==> ranges[..|ranges| - 1][i] == ranges[i];
      match SlotsOf(ranges[..|ranges| - 1], booked)
      case Err(e) => Err(e)
      case Ok(s) =>
        match ParseRange(ranges[|ranges| - 1])
        case Err(e) => Err(e)
        case Ok((a, b)) => Ok(s + RangeSlots(a, b, booked))
  }

  /** The last range either fails, or adds its own slots after those of the ranges before it. */
  lemma SlotsOfStep(ranges: seq<string>, k: nat, booked: seq<string>)
    requires k < |ranges| && SlotsOf(ranges[..k], booked).Ok?
    ensures ParseRange(ranges[k]).Err? ==> SlotsOf(ranges[..k + 1], booked) == Err(ParseRange(ranges[k]).error)
    ensures ParseRange(ranges[k]).Ok? ==>
      (SlotsOf(ranges[..k + 1], booked)
       == Ok(SlotsOf(ranges[..k], booked).value + RangeSlots(ParseRange(ranges[k]).value.0, ParseRange(ranges[k]).value.1, booked)))
  {
    assert ranges[..k + 1][..k] == ranges[..k];
  }

  /** An offered slot comes from the `i`-th range, at time `t` inside it, and is free. */
  lemma {:induction false} SlotWitness(ranges: seq<string>, booked: seq<string>, s: string) returns (i: nat, t: nat)
    requires SlotsOf(ranges, booked).Ok? && s in SlotsOf(ranges, booked).value
    ensures s !in booked && i < |ranges| && ParseRange(ranges[i]).Ok?
    ensures ParseRange(ranges[i]).value.0 <= t < ParseRange(ranges[i]).value.1 && s == FormatTime(t)
  {
    var n := |ranges| - 1;
    SlotsOfStep(ranges, n, booked);
    assert ranges[..n + 1] == ranges;
    var (a, b) := ParseRange(ranges[n]).value;
    if s in SlotsOf(ranges[..n], booked).value {
      i, t := SlotWitness(ranges[..n], booked, s);
      assert ranges[..n][i] == ranges[i];
    } else {
      i := n;
      t := RangeSlotWitness(a, b, booked, s);
    }
  }

  /** Every slot offered lies in one of the doctor's ranges and is not booked. */
  lemma SlotsOfSound(ranges: seq<string>, booked: seq<string>, s: string)
    requires SlotsOf(ranges, booked).Ok? && s in SlotsOf(ranges, booked).value
    ensures s !in booked
    ensures exists i, t: nat :: (0 <= i < |ranges| && ParseRange(ranges[i]).Ok?
      && ParseRange(ranges[i]).value.0 <= t < ParseRange(ranges[i]).value.1 && s == FormatTime(t))
  {
    var i, t := SlotWitness(ranges, booked, s);
  }

  /** Every free step of the 20-minute grid of every range is offered. */
  lemma {:induction false} SlotsOfComplete(ranges: seq<string>, booked: seq<string>, i: nat, t: nat)
    requires SlotsOf(ranges, booked).Ok? && i < |ranges| && ParseRange(ranges[i]).Ok?
    requires OnGrid(ParseRange(ranges[i]).value.0, ParseRange(ranges[i]).value.1, t)
    requires FormatTime(t) !in booked
    ensures FormatTime(t) in SlotsOf(ranges, booked).value
    decreases |ranges|
  {
    var n := |ranges| - 1;
    assert ranges[..n + 1] == ranges;
    assert SlotsOf(ranges[..n], booked).Ok?;
    SlotsOfStep(ranges, n, booked);
    var (a, b) := ParseRange(ranges[n]).value;
    if i < n {
      assert ranges[..n][i] == ranges[i];
      SlotsOfComplete(ranges[..n], booked, i, t);
    } else {
      RangeSlotListed(a, b, booked, t);
    }
  }

  /** Once a range fails to parse, the ranges after it do not matter. */
  lemma {:induction false} SlotsOfErrorStays(ranges: seq<string>, k: nat, booked: seq<string>)
    requires k <= |ranges| && SlotsOf(ranges[..k], booked).Err?
    ensures SlotsOf(ranges, booked) == SlotsOf(ranges[..k], booked)
    decreases |ranges| - k
  {
    if k < |ranges| {
      assert ranges[..k + 1][..k] == ranges[..k];
      SlotsOfErrorStays(ranges, k + 1, booked);
    } else {
      assert ranges[..k] == ranges;
    }
  }

  datatype Appointment = Appointment(doctor: nat, patient: nat, date: int, timeSlot: string, status: string)

  datatype Doctor = Doctor(id: nat, availableTime: seq<string>)

  /** A pending or confirmed appointment of the doctor on that date holds its slot; cancelled or completed ones do not. */
  predicate Blocks(a: Appointment, doctor: nat, date: int) {
    a.doctor == doctor && a.date == date && a.status in {"pending", "confirmed"}
  }

  /** The `time_slot` values of the doctor's pending or confirmed appointments on `date`. */
  function BookedSlots(appointments: seq<Appointment>, doctor: nat, date: int): (booked: seq<string>)
    ensures forall s :: s in booked <==> (exists a :: a in appointments && Blocks(a, doctor, date) && a.timeSlot == s)
  {
    if appointments == [] then []
    else
      var a := appointments[0];
      (if Blocks(a, doctor, date) then [a.timeSlot] else [])
      + BookedSlots(appointments[1..], doctor, date)
  }

  /** The inner `while current < end` loop of `get_available_time_slots`. */
  method AppendRangeSlots(small: seq<string>, start: nat, end: nat, booked: seq<string>) returns (r: seq<string>)
    requires end <= 24 * 60
    ensures r == small + RangeSlots(start, end, booked)
  {
    r := small;
    var current := start;
    while current < end
      invariant r + RangeSlots(current, end, booked) == small + RangeSlots(start, end, booked)
      decreases end - current
    {
      var slot := FormatTime(current);
      ghost var before := r;
      if slot !in booked {
        r := r + [slot];
      }
      AppendStep(before, r, current, end, booked);
      current := current + SlotMinutes;
    }
    assert r + RangeSlots(current, end, booked) == r;
  }

  /** One round of the inner loop moves the first candidate from the pending range to the output. */
  lemma AppendStep(before: seq<string>, after: seq<string>, current: nat, end: nat, booked: seq<string>)
    requires current < end <= 24 * 60
    requires after == if FormatTime(current) in booked then before else before + [FormatTime(current)]
    ensures after + RangeSlots(current + SlotMinutes, end, booked) == before + RangeSlots(current, end, booked)
  {
    var head := if FormatTime(current) in booked then [] else [FormatTime(current)];
    var rest := RangeSlots(current + SlotMinutes, end, booked);
    RangeSlotsUnfold(current, end, booked);
    assert after == before + head;
    AppendAssoc(before, head, rest);
  }

  /** `get_available_time_slots(doctor, date)` with the appointments table passed in. */
  method GetAvailableTimeSlots(doctor: Doctor, date: int, appointments: seq<Appointment>) returns (r: Result<seq<string>, string>)
    ensures r == SlotsOf(doctor.availableTime, BookedSlots(appointments, doctor.id, date))
  {
    var booked := BookedSlots(appointments, doctor.id, date);
    var ranges := doctor.availableTime;
    var small: seq<string> := [];
    var k := 0;
    while k < |ranges|
      invariant 0 <= k <= |ranges|
      invariant SlotsOf(ranges[..k], booked) == Ok(small)
    {
      SlotsOfStep(ranges, k, booked);
      var parsed := ParseRange(ranges[k]);
      if parsed.Err? {
        SlotsOfErrorStays(ranges, k + 1, booked);
        return Err(parsed.error);
      }
      var (start, end) := parsed.value;
      small := AppendRangeSlots(small, start, end, booked);
      k := k + 1;
    }
    assert ranges[..k] == ranges;
    return Ok(small);
  }
}
