/**
  The admin doctor form (`AllDoctors.jsx`): the weekly days, the list of
  "HH:mm-HH:mm" time ranges built from two time pickers, and loading a doctor
  for editing.  Every handler computes a new form value from the old one.
  Times of day are minutes after midnight, as in the slot generator.
*/
module DoctorForm {
  import opened Wrappers
  import opened Text
  import opened Js
  import Slots

  /** The form's fields; the values are whatever the inputs or the server supplied. */
  datatype Form = Form(fullName: Val, specialization: Val, experienceYears: Val, maxPatientsPerDay: Val,
                       consultationFee: Val, availableDays: Val, availableTime: Val)

  /**
    A time picker's value: `null` until a time is chosen, an invalid dayjs
    while the typed text is not a time yet, or a time of day.  Only `null` is
    falsy; an invalid dayjs is an object like any other.
  */
  datatype Picker = Unset | Invalid | Time(minutes: nat)

  /** The form together with the two time pickers. */
  datatype Editor = Editor(form: Form, startTime: Picker, endTime: Picker)

  predicate PickerValid(p: Picker) {
    p.Time? ==> p.minutes < 24 * 60
  }

  predicate PickersValid(e: Editor) {
    PickerValid(e.startTime) && PickerValid(e.endTime)
  }

  /** The range string: both times as dayjs `HH:mm`, joined by "-". */
  function SlotString(start: nat, end: nat): (s: string)
    requires start < 24 * 60 && end < 24 * 60
    ensures |s| == 11 && s[5] == '-'
  {
    Slots.FormatTime(start) + "-" + Slots.FormatTime(end)
  }

  /** A rendered time of day has no "-" in it. */
  lemma NoDashInTime(t: nat)
    requires t < 24 * 60
    ensures '-' !in Slots.FormatTime(t)
  {
    var s := Slots.FormatTime(t);
    assert s == Pad2(t / 60) + ":" + Pad2(t % 60);
    forall i | 0 <= i < |s| ensures s[i] != '-' {
      if i < 2 { assert s[i] == Pad2(t / 60)[i]; }
      else if i > 2 { assert s[i] == Pad2(t % 60)[i - 3]; }
    }
  }

  /**
    A range built by the form is read back by the server's slot generator as
    the same two times: `split("-")` gives two parts and both parse as `%H:%M`.
  */
  lemma SlotStringParses(start: nat, end: nat)
    requires start < 24 * 60 && end < 24 * 60
    ensures Slots.ParseRange(SlotString(start, end)) == Ok((start, end))
  {
    var a, b := Slots.FormatTime(start), Slots.FormatTime(end);
    NoDashInTime(start);
    NoDashInTime(end);
    assert Join([a, b], "-") == a + "-" + b by {
      assert [a, b][1..] == [b];
    }
    SplitJoinRoundTrip([a, b], '-');
    Slots.FormatParseRoundTrip(start);
    Slots.FormatParseRoundTrip(end);
  }

  /** dayjs `format("HH:mm")` of a picker that is set: an invalid date renders as "Invalid Date". */
  function TimeText(p: Picker): (s: string)
    requires PickerValid(p) && !p.Unset?
    ensures p.Time? ==> s == Slots.FormatTime(p.minutes)
    ensures p.Invalid? ==> Slots.ParseTime(s).None?
    ensures '-' !in s
  {
    if p.Time? then NoDashInTime(p.minutes); Slots.FormatTime(p.minutes)
    else InvalidDateIsNoTime(); InvalidDate
  }

  /** "Invalid Date" is not a time: it has no ":" for `strptime` to split at. */
  lemma InvalidDateIsNoTime()
    ensures '-' !in InvalidDate && Slots.ParseTime(InvalidDate).None?
  {
    InvalidDateText();
    assert Slots.FirstIndex(InvalidDate, ':').None?;
  }

  /** The string `handleAddTimeSlot` builds from two set pickers. */
  function RangeText(start: Picker, end: Picker): (s: string)
    requires PickerValid(start) && PickerValid(end) && !start.Unset? && !end.Unset?
    ensures start.Time? && end.Time? ==> s == SlotString(start.minutes, end.minutes)
  {
    TimeText(start) + "-" + TimeText(end)
  }

  /**
    A range built while either picker holds an invalid date is stored, but
    the server's slot generator cannot read it back: one of its halves is
    "Invalid Date", which has no ":".
  */
  lemma InvalidPickerRangeRejected(start: Picker, end: Picker)
    requires PickerValid(start) && PickerValid(end) && !start.Unset? && !end.Unset?
    requires start.Invalid? || end.Invalid?
    ensures Slots.ParseRange(RangeText(start, end)).Err?
  {
    var a, b := TimeText(start), TimeText(end);
    assert Join([a, b], "-") == a + "-" + b by {
      assert [a, b][1..] == [b];
    }
    SplitJoinRoundTrip([a, b], '-');
  }

  /** `[...xs]` for an iterable value: the elements of an array, the characters of a string. */
  function Spread(v: Val): (r: Option<seq<Val>>)
    ensures r.Some? <==> v.Arr? || v.Str?
    ensures v.Arr? ==> r == Some(v.elems)
    ensures v.Str? ==> r.Some? && |r.value| == |v.s|
  {
    match v
    case Arr(xs) => Some(xs)
    case Str(s) => Some(Chars(s))
    case _ => None
  }

  function Chars(s: string): (r: seq<Val>)
    ensures |r| == |s| && forall i :: 0 <= i < |s| ==> r[i] == Str([s[i]])
  {
    if s == [] then [] else [Str([s[0]])] + Chars(s[1..])
  }

  /**
    `handleAddTimeSlot`: with both pickers set (valid or not), the range
    string is appended to the time list and both pickers are cleared; with
    either unset nothing happens.  Spreading a list that is not iterable
    throws before any state changes.
  */
  function AddTimeSlot(e: Editor): (r: Editor)
    requires PickersValid(e)
    ensures e.startTime.Unset? || e.endTime.Unset? ==> r == e
    ensures !e.startTime.Unset? && !e.endTime.Unset? && e.form.availableTime.Arr? ==>
      r.startTime.Unset? && r.endTime.Unset?
      && r.form == e.form.(availableTime :=
           Arr(e.form.availableTime.elems + [Str(RangeText(e.startTime, e.endTime))]))
    ensures Spread(e.form.availableTime).None? ==> r == e
  {
    if !e.startTime.Unset? && !e.endTime.Unset? then
      match Spread(e.form.availableTime)
      case None => e
      case Some(xs) =>
        var slot := RangeText(e.startTime, e.endTime);
        Editor(e.form.(availableTime := Arr(xs + [Str(slot)])), Unset, Unset)
    else e
  }

  /** The picker state that the add button leaves behind is always a valid one again. */
  lemma AddTimeSlotKeepsPickersValid(e: Editor)
    requires PickersValid(e)
    ensures PickersValid(AddTimeSlot(e))
  {
  }

  /**
    `handleRemoveTimeSlot(idx)`: the list filtered by position, so only the
    element at `idx` goes and the rest keep their order; a value without
    `filter` throws and the form stays as it was.
  */
  function RemoveTimeSlot(f: Form, idx: int): (r: Option<Form>)
    ensures r.Some? <==> f.availableTime.Arr?
    ensures r.Some? ==> r.value == f.(availableTime := r.value.availableTime) && r.value.availableTime.Arr?
    ensures r.Some? && 0 <= idx < |f.availableTime.elems| ==>
      var xs, ys := f.availableTime.elems, r.value.availableTime.elems;
      |ys| == |xs| - 1
      && (forall k :: 0 <= k < idx ==> ys[k] == xs[k])
      && (forall k :: idx <= k < |ys| ==> ys[k] == xs[k + 1])
    ensures r.Some? && !(0 <= idx < |f.availableTime.elems|) ==> r.value == f
  {
    match f.availableTime
    case Arr(xs) =>
      if 0 <= idx < |xs| then Some(f.(availableTime := Arr(xs[..idx] + xs[idx + 1..]))) else Some(f)
    case _ => None
  }

  /**
    The add button accepts a picker holding an invalid date: the list grows
    by a range that the server's slot generator rejects.
  */
  lemma AddWithInvalidPickerStoresUnreadableRange(e: Editor)
    requires PickersValid(e) && !e.startTime.Unset? && !e.endTime.Unset? && e.form.availableTime.Arr?
    requires e.startTime.Invalid? || e.endTime.Invalid?
    ensures var xs := AddTimeSlot(e).form.availableTime;
      xs.Arr? && |xs.elems| == |e.form.availableTime.elems| + 1
      && xs.elems[|xs.elems| - 1].Str? && Slots.ParseRange(xs.elems[|xs.elems| - 1].s).Err?
  {
    InvalidPickerRangeRejected(e.startTime, e.endTime);
  }

  /** Adding a range and removing it again restores the list. */
  lemma AddThenRemove(e: Editor)
    requires PickersValid(e) && !e.startTime.Unset? && !e.endTime.Unset? && e.form.availableTime.Arr?
    ensures RemoveTimeSlot(AddTimeSlot(e).form, |e.form.availableTime.elems|) == Some(e.form)
  {
    var xs := e.form.availableTime.elems;
    var ys := AddTimeSlot(e).form.availableTime.elems;
    assert ys[..|xs|] + ys[|xs| + 1..] == xs;
  }

  function Strs(parts: seq<string>): (r: seq<Val>)
    ensures |r| == |parts| && forall i :: 0 <= i < |parts| ==> r[i] == Str(parts[i])
  {
    if parts == [] then [] else [Str(parts[0])] + Strs(parts[1..])
  }

  /** `handleDaysChange`: a string value is split at ","; any other value is taken as it is. */
  function DaysChange(f: Form, value: Val): (r: Form)
    ensures r == f.(availableDays := r.availableDays)
    ensures value.Str? ==> r.availableDays == Arr(Strs(Split(value.s, ',')))
    ensures !value.Str? ==> r.availableDays == value
  {
    f.(availableDays := if value.Str? then Arr(Strs(Split(value.s, ','))) else value)
  }

  /** A list of day names offered as one comma-joined string is read back as the same list. */
  lemma DaysFromJoinedString(f: Form, days: seq<string>)
    requires |days| >= 1 && forall d :: d in days ==> ',' !in d
    ensures DaysChange(f, Str(Join(days, ","))).availableDays == Arr(Strs(days))
  {
    SplitJoinRoundTrip(days, ',');
  }

  /**
    `handleEdit(doctor)`: the form takes the doctor's fields, with missing
    (falsy) days and times replaced by empty lists; the form enters edit mode
    for the doctor's id.
  */
  function Edit(doctor: Val): (r: (Form, bool, Val))
    requires doctor.Obj?
    ensures r.1 && r.2 == Get(doctor, "id")
    ensures r.0.fullName == Get(doctor, "full_name") && r.0.specialization == Get(doctor, "specialization")
    ensures r.0.experienceYears == Get(doctor, "experience_years")
    ensures r.0.maxPatientsPerDay == Get(doctor, "max_patients_per_day")
    ensures r.0.consultationFee == Get(doctor, "consultation_fee")
    ensures Truthy(Get(doctor, "available_days")) ==> r.0.availableDays == Get(doctor, "available_days")
    ensures !Truthy(Get(doctor, "available_days")) ==> r.0.availableDays == Arr([])
    ensures Truthy(Get(doctor, "available_time")) ==> r.0.availableTime == Get(doctor, "available_time")
    ensures !Truthy(Get(doctor, "available_time")) ==> r.0.availableTime == Arr([])
  {
    (Form(Get(doctor, "full_name"), Get(doctor, "specialization"), Get(doctor, "experience_years"),
          Get(doctor, "max_patients_per_day"), Get(doctor, "consultation_fee"),
          Or(Get(doctor, "available_days"), Arr([])), Or(Get(doctor, "available_time"), Arr([]))),
     true, Get(doctor, "id"))
  }

  /** A doctor loaded for editing with no time ranges can take a new range at once. */
  lemma EditThenAdd(doctor: Val, start: nat, end: nat)
    requires doctor.Obj? && !Truthy(Get(doctor, "available_time"))
    requires start < 24 * 60 && end < 24 * 60
    ensures AddTimeSlot(Editor(Edit(doctor).0, Time(start), Time(end))).form.availableTime
      == Arr([Str(SlotString(start, end))])
  {
  }
}
