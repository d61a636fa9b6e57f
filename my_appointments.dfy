/**
 * The customer's appointment list: the upcoming and past tabs, and the local updates made
 * after a cancel or reschedule call.
 *
 * `when(date, time)` is the instant the page builds from an appointment's date and time,
 * None when the text is not a valid date (every comparison with it is then false); `now`
 * is the instant the page was rendered.
 */
module MyAppointments {
  import opened Wrappers
  import opened FrontTypes
  import opened Seqs

  /** Booked or rescheduled, with a valid date at or after now. */
  predicate IsUpcoming(a: Appointment, now: int, when: (string, string) -> Option<int>)
  {
    (a.status == Booked || a.status == Rescheduled)
    && when(a.date, a.time).Some? && when(a.date, a.time).value >= now
  }

  /** With a valid date, an appointment is past exactly when it is not upcoming. */
  predicate IsPast(a: Appointment, now: int, when: (string, string) -> Option<int>)
    ensures when(a.date, a.time).Some? ==> (IsPast(a, now, when) <==> !IsUpcoming(a, now, when))
  {
    a.status == Completed || a.status == Cancelled
    || (when(a.date, a.time).Some? && when(a.date, a.time).value < now)
  }

  /** The upcoming tab: booked or rescheduled, at or after now, in list order. */
  function Upcoming(appointments: seq<Appointment>, now: int, when: (string, string) -> Option<int>)
    : (r: seq<Appointment>)
    ensures SubsequenceOf(r, appointments)
    ensures forall a :: a in r <==> a in appointments && IsUpcoming(a, now, when)
  {
    Filter(appointments, (a: Appointment) => IsUpcoming(a, now, when))
  }

  /** The past tab: completed or cancelled, or before now, in list order. */
  function Past(appointments: seq<Appointment>, now: int, when: (string, string) -> Option<int>)
    : (r: seq<Appointment>)
    ensures SubsequenceOf(r, appointments)
    ensures forall a :: a in r <==> a in appointments && IsPast(a, now, when)
  {
    Filter(appointments, (a: Appointment) => IsPast(a, now, when))
  }

  /**
   * When every date and time is valid, the two tabs split the list: each appointment is in
   * exactly one of them, so their lengths add up to the list's.
   */
  lemma TabsPartition(appointments: seq<Appointment>, now: int, when: (string, string) -> Option<int>)
    requires forall i :: 0 <= i < |appointments| ==> when(appointments[i].date, appointments[i].time).Some?
    ensures forall a :: a in appointments ==> (a in Upcoming(appointments, now, when) <==> a !in Past(appointments, now, when))
    ensures |Upcoming(appointments, now, when)| + |Past(appointments, now, when)| == |appointments|
  {
    FilterComplement(appointments, (a: Appointment) => IsUpcoming(a, now, when),
                     (a: Appointment) => IsPast(a, now, when));
  }

  /** A booked appointment whose date is not valid shows in neither tab. */
  lemma InvalidDateShowsNowhere(appointments: seq<Appointment>, now: int, when: (string, string) -> Option<int>,
                                a: Appointment)
    requires a in appointments && a.status == Booked && when(a.date, a.time).None?
    ensures a !in Upcoming(appointments, now, when) && a !in Past(appointments, now, when)
  {
  }

  /** The list after a successful cancel: the matching appointments become CANCELLED, nothing else changes. */
  function MarkCancelled(appointments: seq<Appointment>, id: string): (r: seq<Appointment>)
    ensures |r| == |appointments|
    ensures forall i :: 0 <= i < |r| && appointments[i].id != id ==> r[i] == appointments[i]
    ensures forall i :: 0 <= i < |r| && appointments[i].id == id ==>
              r[i].status == Cancelled && r[i] == appointments[i].(status := r[i].status)
  {
    seq(|appointments|, i requires 0 <= i < |appointments| =>
      if appointments[i].id == id then appointments[i].(status := Cancelled) else appointments[i])
  }

  /** The list after a successful reschedule: the matching appointments take the new date, time and RESCHEDULED. */
  function MarkRescheduled(appointments: seq<Appointment>, id: string, newDate: string, newTime: string)
    : (r: seq<Appointment>)
    ensures |r| == |appointments|
    ensures forall i :: 0 <= i < |r| && appointments[i].id != id ==> r[i] == appointments[i]
    ensures forall i :: 0 <= i < |r| && appointments[i].id == id ==>
              && r[i].date == newDate && r[i].time == newTime && r[i].status == Rescheduled
              && r[i].id == appointments[i].id && r[i].customerId == appointments[i].customerId
              && r[i].providerId == appointments[i].providerId
  {
    seq(|appointments|, i requires 0 <= i < |appointments| =>
      if appointments[i].id == id
      then appointments[i].(date := newDate, time := newTime, status := Rescheduled)
      else appointments[i])
  }

  /**
   * `handleCancel`: only when the user confirms and the cancel call succeeds is the list
   * updated; otherwise it is left as it was.
   */
  function HandleCancel(appointments: seq<Appointment>, id: string, confirmed: bool, callSucceeded: bool)
    : (r: seq<Appointment>)
    ensures !(confirmed && callSucceeded) ==> r == appointments
    ensures confirmed && callSucceeded ==> r == MarkCancelled(appointments, id)
  {
    if confirmed && callSucceeded then MarkCancelled(appointments, id) else appointments
  }

  /** The state of the reschedule dialog. */
  datatype Dialog = Dialog(selected: Option<Appointment>, newDate: string, newTime: string, open: bool)

  /** `openRescheduleModal`: the dialog opens on the appointment, pre-filled with its date and time. */
  function OpenRescheduleDialog(a: Appointment): (d: Dialog)
    ensures d.open && d.selected == Some(a)
    ensures d.newDate == a.date && d.newTime == a.time
  {
    Dialog(Some(a), a.date, a.time, true)
  }

  /**
   * `handleReschedule`: without a selected appointment nothing happens; a failed call leaves
   * list and dialog as they were; a successful one updates the list and closes the dialog.
   */
  function HandleReschedule(appointments: seq<Appointment>, d: Dialog, callSucceeded: bool)
    : (r: (seq<Appointment>, Dialog))
    ensures d.selected.None? || !callSucceeded ==> r == (appointments, d)
    ensures d.selected.Some? && callSucceeded ==>
              && r.0 == MarkRescheduled(appointments, d.selected.value.id, d.newDate, d.newTime)
              && !r.1.open && r.1.selected == d.selected
  {
    if d.selected.None? then (appointments, d)
    else if !callSucceeded then (appointments, d)
    else (MarkRescheduled(appointments, d.selected.value.id, d.newDate, d.newTime), d.(open := false))
  }

  /** Opening the dialog and saving it unchanged keeps the appointment's date and time. */
  lemma RescheduleUnchangedKeepsSlot(appointments: seq<Appointment>, i: nat)
    requires i < |appointments|
    ensures var r := HandleReschedule(appointments, OpenRescheduleDialog(appointments[i]), true).0;
            r[i].date == appointments[i].date && r[i].time == appointments[i].time
            && r[i].status == Rescheduled
  {
  }
}
