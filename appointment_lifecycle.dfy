/**
 * The request handlers of the appointment service: book, cancel, reschedule and list, over
 * a table of appointment rows keyed by their auto-increment id.
 *
 * The availability check on the provider service is an abstract oracle, and whether the
 * database answers is a parameter `dbUp`: when it is false the first database call of the
 * handler throws.
 */
module AppointmentLifecycle {
  import opened Wrappers
  import opened AppointmentModel

  /** What the availability check reports to this service. `Failed`: the call threw. */
  datatype Answer = Available | Unavailable | Failed

  /** The three query parameters of an availability check. */
  datatype Query = Query(providerId: Option<string>, date: Option<string>, time: Option<string>)

  /** A response body: one row, every row, a message, or the text of a database error. */
  datatype Body = Row(appointment: Appointment) | Rows(all: set<Appointment>) | Message(text: string) | StoreError

  /** An HTTP status code with its JSON body. */
  datatype Reply = Reply(status: int, body: Body)

  /** The appointment table: rows keyed by id, and the id the next insert receives. */
  datatype Table = Table(rows: map<int, Appointment>, nextId: int)

  /** The message the availability client raises when the provider service cannot be reached. */
  const ProviderServiceDown := "Provider Service is currently unavailable."

  /** Ids start at 1 and stay below the next id, and every row is stored under its own id. */
  predicate WellFormed(t: Table)
  {
    && t.nextId >= 1
    && forall k :: k in t.rows ==> 1 <= k < t.nextId && t.rows[k].id == k
  }

  /** The availability question a booking asks: the request's provider, date and time. */
  function BookingQuery(f: Fields): (q: Query)
    ensures q.providerId == f.providerId && q.date == f.date && q.time == f.time
  {
    Query(f.providerId, f.date, f.time)
  }

  /**
   * Booking. The oracle is asked first: a refusal is 400 and a failure 502, both leaving the
   * table as it was. After a yes, a database failure or a null required field is 502 with
   * nothing added; otherwise exactly one new row, under a fresh id, carrying the request's
   * values and status BOOKED, and 201.
   */
  function Book(t: Table, f: Fields, oracle: Query -> Answer, dbUp: bool): (r: (Reply, Table))
    requires WellFormed(t)
    ensures WellFormed(r.1)
    ensures r.0.status in {201, 400, 502}
    ensures oracle(BookingQuery(f)) == Unavailable <==> r.0.status == 400
    ensures r.0.status == 400 ==> r.0.body == Message("Provider not available at the given time.")
    ensures oracle(BookingQuery(f)) == Failed ==> r.0 == Reply(502, Message(ProviderServiceDown))
    ensures r.0.status == 201 <==> oracle(BookingQuery(f)) == Available && dbUp && Complete(f)
    ensures r.0.status != 201 ==> r.1 == t
    ensures r.0.status == 201 ==>
              && t.nextId !in t.rows
              && r.1.rows.Keys == t.rows.Keys + {t.nextId}
              && (forall k :: k in t.rows ==> r.1.rows[k] == t.rows[k])
              && r.0.body == Row(r.1.rows[t.nextId])
              && Build(t.nextId, f, None) == Some(r.1.rows[t.nextId])
              && r.1.rows[t.nextId].status == Booked
  {
    match oracle(BookingQuery(f))
    case Failed => (Reply(502, Message(ProviderServiceDown)), t)
    case Unavailable => (Reply(400, Message("Provider not available at the given time.")), t)
    case Available =>
      if !dbUp then (Reply(502, StoreError), t)
      else
        match Build(t.nextId, f, None)
        case None => (Reply(502, StoreError), t)
        case Some(a) => (Reply(201, Row(a)), Table(t.rows[a.id := a], t.nextId + 1))
  }

  /**
   * Cancelling. A database failure is 500 and an unknown id 404, both leaving the table as
   * it was. Otherwise the row's status becomes CANCELLED whatever it was before; its other
   * columns and every other row are kept.
   */
  function Cancel(t: Table, id: int, dbUp: bool): (r: (Reply, Table))
    requires WellFormed(t)
    ensures WellFormed(r.1)
    ensures r.0.status in {200, 404, 500}
    ensures !dbUp ==> r.0 == Reply(500, StoreError) && r.1 == t
    ensures dbUp && id !in t.rows ==> r.0 == Reply(404, Message("Appointment not found")) && r.1 == t
    ensures r.0.status == 200 <==> dbUp && id in t.rows
    ensures r.1.rows.Keys == t.rows.Keys && r.1.nextId == t.nextId
    ensures forall k :: k in t.rows && k != id ==> r.1.rows[k] == t.rows[k]
    ensures r.0.status == 200 ==>
              && r.0.body == Row(r.1.rows[id])
              && r.1.rows[id].status == Cancelled
              && r.1.rows[id] == t.rows[id].(status := r.1.rows[id].status)
  {
    if !dbUp then (Reply(500, StoreError), t)
    else if id !in t.rows then (Reply(404, Message("Appointment not found")), t)
    else
      var a := t.rows[id].(status := Cancelled);
      (Reply(200, Row(a)), t.(rows := t.rows[id := a]))
  }

  /** The availability question a reschedule asks: the stored provider, the new date and time. */
  function RescheduleQuery(a: Appointment, date: Option<string>, time: Option<string>): (q: Query)
    ensures q.providerId == Some(a.providerId) && q.date == date && q.time == time
  {
    Query(Some(a.providerId), date, time)
  }

  /**
   * Rescheduling. The id is looked up before the oracle is asked: an unknown id is 404
   * whatever the oracle would say. A refusal is 400 "New time not available" and a failure
   * 502, both leaving the row as it was. After a yes the row takes the new date and time and
   * status RESCHEDULED, keeping its customer and provider; there is no guard on the old
   * status. A null new date or time makes the save fail (502).
   */
  function Reschedule(t: Table, id: int, date: Option<string>, time: Option<string>,
                      oracle: Query -> Answer, dbUp: bool): (r: (Reply, Table))
    requires WellFormed(t)
    ensures WellFormed(r.1)
    ensures r.0.status in {200, 400, 404, 502}
    ensures r.0.status != 200 ==> r.1 == t
    ensures !dbUp ==> r.0 == Reply(502, StoreError)
    ensures dbUp && id !in t.rows ==> r.0 == Reply(404, Message("Appointment not found"))
    ensures dbUp && id in t.rows ==>
              var answer := oracle(RescheduleQuery(t.rows[id], date, time));
              && (answer == Available && (date.None? || time.None?) ==> r.0 == Reply(502, StoreError))
              && (answer == Unavailable <==> r.0 == Reply(400, Message("New time not available")))
              && (answer == Failed ==> r.0 == Reply(502, Message(ProviderServiceDown)))
              && (r.0.status == 200 <==> answer == Available && date.Some? && time.Some?)
    ensures r.0.status == 200 ==>
              && id in t.rows
              && r.1.rows.Keys == t.rows.Keys && r.1.nextId == t.nextId
              && (forall k :: k in t.rows && k != id ==> r.1.rows[k] == t.rows[k])
              && r.0.body == Row(r.1.rows[id])
              && Some(r.1.rows[id].date) == date && Some(r.1.rows[id].time) == time
              && r.1.rows[id].status == Rescheduled
              && r.1.rows[id].customerId == t.rows[id].customerId
              && r.1.rows[id].providerId == t.rows[id].providerId
              && r.1.rows[id].id == id
  {
    if !dbUp then (Reply(502, StoreError), t)
    else if id !in t.rows then (Reply(404, Message("Appointment not found")), t)
    else
      match oracle(RescheduleQuery(t.rows[id], date, time))
      case Failed => (Reply(502, Message(ProviderServiceDown)), t)
      case Unavailable => (Reply(400, Message("New time not available")), t)
      case Available =>
        if date.None? || time.None? then (Reply(502, StoreError), t)
        else
          var a := t.rows[id].(date := date.value, time := time.value, status := Rescheduled);
          (Reply(200, Row(a)), t.(rows := t.rows[id := a]))
  }

  /** Listing: every stored row and nothing else (200), or 500 when the database fails. */
  function List(t: Table, dbUp: bool): (r: Reply)
    ensures dbUp ==> r.status == 200 && r.body.Rows?
                     && (forall k :: k in t.rows ==> t.rows[k] in r.body.all)
                     && (forall a :: a in r.body.all ==> a in t.rows.Values)
    ensures !dbUp ==> r == Reply(500, StoreError)
  {
    if dbUp then Reply(200, Rows(t.rows.Values)) else Reply(500, StoreError)
  }

  /** Cancel is idempotent: a second cancel of the same id changes nothing more. */
  lemma {:induction false} CancelIdempotent(t: Table, id: int, dbUp: bool)
    requires WellFormed(t)
    ensures var once := Cancel(t, id, dbUp);
            Cancel(once.1, id, dbUp) == once
  {
    var once := Cancel(t, id, dbUp);
    if dbUp && id in t.rows {
      assert once.1.rows[id].(status := Cancelled) == once.1.rows[id];
      assert once.1.rows[id := once.1.rows[id]] == once.1.rows;
    }
  }

  /** No handler ever removes a row: every id stored before is stored after. */
  lemma NoRowIsRemoved(t: Table, f: Fields, id: int, date: Option<string>, time: Option<string>,
                       oracle: Query -> Answer, dbUp: bool)
    requires WellFormed(t)
    ensures t.rows.Keys <= Book(t, f, oracle, dbUp).1.rows.Keys
    ensures t.rows.Keys <= Cancel(t, id, dbUp).1.rows.Keys
    ensures t.rows.Keys <= Reschedule(t, id, date, time, oracle, dbUp).1.rows.Keys
  {
  }

  /** A cancelled appointment can be rescheduled: the reschedule handler has no status guard. */
  lemma CancelledCanBeRescheduled(t: Table, id: int, date: string, time: string, oracle: Query -> Answer)
    requires WellFormed(t) && id in t.rows
    requires oracle(RescheduleQuery(t.rows[id], Some(date), Some(time))) == Available
    ensures var c := Cancel(t, id, true).1;
            var r := Reschedule(c, id, Some(date), Some(time), oracle, true);
            r.0.status == 200 && r.1.rows[id].status == Rescheduled
  {
    var c := Cancel(t, id, true).1;
    assert c.rows[id].providerId == t.rows[id].providerId;
    assert RescheduleQuery(c.rows[id], Some(date), Some(time)) == RescheduleQuery(t.rows[id], Some(date), Some(time));
  }

  /**
   * The appointment table as the handlers change it: each method looks the row up, sets its
   * fields and saves it, or inserts a new row, and returns the HTTP reply.
   */
  class AppointmentStore {
    var rows: map<int, Appointment>
    var nextId: int

    predicate Valid()
      reads this
    {
      WellFormed(Table(rows, nextId))
    }

    /** The table the object holds. */
    function State(): (t: Table)
      reads this
      ensures t.rows == rows && t.nextId == nextId
    {
      Table(rows, nextId)
    }

    constructor ()
      ensures Valid() && rows == map[] && nextId == 1
    {
      rows := map[];
      nextId := 1;
    }

    /** `bookAppointment`: ask the provider service, then create the row. */
    method BookAppointment(f: Fields, oracle: Query -> Answer, dbUp: bool) returns (reply: Reply)
      requires Valid()
      modifies this
      ensures Valid()
      ensures (reply, State()) == Book(old(State()), f, oracle, dbUp)
    {
      var isAvailable := oracle(Query(f.providerId, f.date, f.time));
      if isAvailable == Failed {
        return Reply(502, Message(ProviderServiceDown));
      }
      if isAvailable == Unavailable {
        return Reply(400, Message("Provider not available at the given time."));
      }
      if !dbUp || !Complete(f) {
        return Reply(502, StoreError);
      }
      var appointment := Appointment(nextId, f.customerId.value, f.providerId.value,
                                     f.date.value, f.time.value, DefaultStatus(None));
      rows := rows[nextId := appointment];
      nextId := nextId + 1;
      reply := Reply(201, Row(appointment));
    }

    /** `cancelAppointment`: find the row, set its status, save it. */
    method CancelAppointment(id: int, dbUp: bool) returns (reply: Reply)
      requires Valid()
      modifies this
      ensures Valid()
      ensures (reply, State()) == Cancel(old(State()), id, dbUp)
    {
      if !dbUp {
        return Reply(500, StoreError);
      }
      if id !in rows {
        return Reply(404, Message("Appointment not found"));
      }
      var appointment := rows[id];
      appointment := appointment.(status := Cancelled);
      rows := rows[id := appointment];
      reply := Reply(200, Row(appointment));
    }

    /** `rescheduleAppointment`: find the row, ask the provider service, set the fields, save. */
    method RescheduleAppointment(id: int, date: Option<string>, time: Option<string>,
                                 oracle: Query -> Answer, dbUp: bool) returns (reply: Reply)
      requires Valid()
      modifies this
      ensures Valid()
      ensures (reply, State()) == Reschedule(old(State()), id, date, time, oracle, dbUp)
    {
      if !dbUp {
        return Reply(502, StoreError);
      }
      if id !in rows {
        return Reply(404, Message("Appointment not found"));
      }
      var appointment := rows[id];
      var isAvailable := oracle(Query(Some(appointment.providerId), date, time));
      if isAvailable == Failed {
        return Reply(502, Message(ProviderServiceDown));
      }
      if isAvailable == Unavailable {
        return Reply(400, Message("New time not available"));
      }
      if date.None? || time.None? {
        return Reply(502, StoreError);
      }
      appointment := appointment.(date := date.value);
      appointment := appointment.(time := time.value);
      appointment := appointment.(status := Rescheduled);
      rows := rows[id := appointment];
      reply := Reply(200, Row(appointment));
    }

    /** `getAppointments`: every row. */
    method GetAppointments(dbUp: bool) returns (reply: Reply)
      requires Valid()
      ensures reply == List(State(), dbUp)
    {
      if !dbUp {
        return Reply(500, StoreError);
      }
      reply := Reply(200, Rows(rows.Values));
    }
  }
}
