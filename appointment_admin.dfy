/**
  The appointment page of the Django admin: the "Available Time Slots"
  column and what happens when an administrator saves an appointment.
  Dates are day numbers; today's date, the model's own validation and the
  database write are passed in, and the mail is returned instead of sent.
*/
module AppointmentAdmin {
  import opened Wrappers
  import opened Text
  import Slots

  const NoSlots := "No slots available"
  const PastDay := "-"

  /**
    `available_slots_today(obj)`: for an appointment dated today or later,
    the doctor's free slots on that date joined by ", " (or the "none" text);
    for an earlier date a dash.  A malformed range of the doctor raises and
    the cell is not rendered, which is the `Err` result.
  */
  method AvailableSlotsToday(appt: Slots.Appointment, doctor: Slots.Doctor, today: int,
                             appointments: seq<Slots.Appointment>) returns (r: Result<string, string>)
    ensures appt.date < today ==> r == Ok(PastDay)
    ensures appt.date >= today ==>
      var free := Slots.SlotsOf(doctor.availableTime, Slots.BookedSlots(appointments, doctor.id, appt.date));
      (r.Err? <==> free.Err?)
      && (free.Err? ==> r.error == free.error)
      && (free == Ok([]) ==> r == Ok(NoSlots))
      && (free.Ok? && free.value != [] ==> r == Ok(Join(free.value, ", ")))
  {
    if appt.date >= today {
      var slots := Slots.GetAvailableTimeSlots(doctor, appt.date, appointments);
      if slots.Err? {
        return Err(slots.error);
      }
      if slots.value != [] {
        return Ok(Join(slots.value, ", "));
      }
      return Ok(NoSlots);
    }
    return Ok(PastDay);
  }

  /** Every slot the generator offers is a rendered time of day, `HH:MM`. */
  lemma SlotShape(ranges: seq<string>, booked: seq<string>, s: string)
    requires Slots.SlotsOf(ranges, booked).Ok? && s in Slots.SlotsOf(ranges, booked).value
    ensures |s| == 5 && s[2] == ':'
  {
    Slots.SlotsOfSound(ranges, booked, s);
  }

  /** A list starts with its first part once joined. */
  lemma JoinStartsWithFirst(parts: seq<string>, sep: string)
    requires parts != []
    ensures |Join(parts, sep)| >= |parts[0]| && Join(parts, sep)[..|parts[0]|] == parts[0]
  {
    if |parts| > 1 {
      assert Join(parts, sep) == parts[0] + (sep + Join(parts[1..], sep));
    }
  }

  /**
    The three kinds of cell text cannot be confused: a list of free slots
    has a ":" as its third character, which neither the "none" text nor the
    dash has.
  */
  lemma ColumnTellsCasesApart(ranges: seq<string>, booked: seq<string>)
    requires Slots.SlotsOf(ranges, booked).Ok? && Slots.SlotsOf(ranges, booked).value != []
    ensures var cell := Join(Slots.SlotsOf(ranges, booked).value, ", ");
      |cell| >= 5 && cell[2] == ':' && cell != NoSlots && cell != PastDay
  {
    var slots := Slots.SlotsOf(ranges, booked).value;
    SlotShape(ranges, booked, slots[0]);
    JoinStartsWithFirst(slots, ", ");
    var cell := Join(slots, ", ");
    assert cell[2] == cell[..5][2] == slots[0][2];
    assert NoSlots[2] == ' ';
  }

  /** The confirmation mail: its subject and its one recipient. */
  datatype Mail = Mail(subject: string, recipient: string)

  /** What a save leaves behind: whether the row was written, the mail sent, the error message shown. */
  datatype SaveOutcome = SaveOutcome(saved: bool, mail: Option<Mail>, error: Option<string>)

  const ConfirmedSubject := "Your Appointment is Confirmed"

  /**
    `save_model`: validation first, then the write, then a mail to the
    patient when the status is "confirmed".  A failure of validation or of
    the write is shown as "Cannot save appointment: <reason>".  A mail that
    cannot be delivered fails silently and does not count as a failure.
  */
  function SaveModel(status: string, patientEmail: string, cleanError: Option<string>,
                     writeError: Option<string>): (r: SaveOutcome)
    ensures r.saved <==> cleanError.None? && writeError.None?
    ensures r.error.None? <==> r.saved
    ensures cleanError.Some? ==> r.error == Some("Cannot save appointment: " + cleanError.value)
    ensures cleanError.None? && writeError.Some? ==> r.error == Some("Cannot save appointment: " + writeError.value)
    ensures r.mail.Some? <==> r.saved && status == "confirmed"
    ensures r.mail.Some? ==> r.mail.value == Mail(ConfirmedSubject, patientEmail)
  {
    if cleanError.Some? then SaveOutcome(false, None, Some("Cannot save appointment: " + cleanError.value))
    else if writeError.Some? then SaveOutcome(false, None, Some("Cannot save appointment: " + writeError.value))
    else if status == "confirmed" then SaveOutcome(true, Some(Mail(ConfirmedSubject, patientEmail)), None)
    else SaveOutcome(true, None, None)
  }
}
