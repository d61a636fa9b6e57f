/**
 * The appointment record of the appointment service: four required columns, a status
 * enumeration with three values and BOOKED as its default.
 */
module AppointmentModel {
  import opened Wrappers

  /** The backend status enumeration. It has no COMPLETED value. */
  datatype Status = Booked | Cancelled | Rescheduled

  /**
   * A stored row. The date column holds a date without a time of day and the time column a
   * time of day; they are kept apart, as strings in the form the request carried them.
   */
  datatype Appointment = Appointment(
    id: int,
    customerId: string,
    providerId: string,
    date: string,
    time: string,
    status: Status)

  /** The column values a create call supplies; any of them may be missing (null). */
  datatype Fields = Fields(
    customerId: Option<string>,
    providerId: Option<string>,
    date: Option<string>,
    time: Option<string>)

  /** The not-null constraints of the four required columns. */
  predicate Complete(f: Fields)
  {
    f.customerId.Some? && f.providerId.Some? && f.date.Some? && f.time.Some?
  }

  /** The status a new row gets: the supplied one, otherwise BOOKED. */
  function DefaultStatus(supplied: Option<Status>): (s: Status)
    ensures supplied.None? ==> s == Booked
    ensures supplied.Some? ==> s == supplied.value
  {
    if supplied.Some? then supplied.value else Booked
  }

  /**
   * Building a row: refused (None) exactly when a required column is null; otherwise the
   * row carries the supplied values, the given id and the default status.
   */
  function Build(id: int, f: Fields, status: Option<Status>): (r: Option<Appointment>)
    ensures r.Some? <==> Complete(f)
    ensures r.Some? ==>
              && r.value.id == id
              && Some(r.value.customerId) == f.customerId && Some(r.value.providerId) == f.providerId
              && Some(r.value.date) == f.date && Some(r.value.time) == f.time
    ensures r.Some? && status.None? ==> r.value.status == Booked
  {
    if Complete(f) then
      Some(Appointment(id, f.customerId.value, f.providerId.value, f.date.value, f.time.value,
                       DefaultStatus(status)))
    else
      None
  }
}
