/**
 * The appointment service wired to the provider service it actually calls: the availability
 * oracle is the provider's check-availability handler as seen through the HTTP client,
 * which resolves on a 2xx reply and throws on any other status.
 */
module ServiceComposition {
  import opened Wrappers
  import opened AppointmentModel
  import opened AppointmentLifecycle
  import ProviderRoutes

  /** The oracle the deployed services implement. */
  function RemoteOracle(q: Query): (a: Answer)
    ensures a != Unavailable
    ensures a == Available <==> Truthy(q.providerId) && Truthy(q.date) && Truthy(q.time)
  {
    var reply := ProviderRoutes.CheckAvailability(q.providerId, q.date, q.time);
    if 200 <= reply.status < 300 then
      (if reply.available then Available else Unavailable)
    else
      Failed
  }

  /**
   * With the deployed oracle a booking is never refused as unavailable: the 400 branch is
   * unreachable, and a query with a missing or empty value surfaces as a 502 instead.
   */
  lemma BookNeverSaysUnavailable(t: Table, f: Fields, dbUp: bool)
    requires WellFormed(t)
    ensures Book(t, f, RemoteOracle, dbUp).0.status != 400
    ensures !(Truthy(f.providerId) && Truthy(f.date) && Truthy(f.time)) ==>
              Book(t, f, RemoteOracle, dbUp) == (Reply(502, Message(ProviderServiceDown)), t)
  {
  }

  /**
   * Nothing stops a double booking: booking the same provider, date and time twice, both
   * requests succeed and the table holds two BOOKED rows for that slot.
   */
  lemma DoubleBookingSucceeds(t: Table, f: Fields)
    requires WellFormed(t)
    requires f.customerId.Some? && Truthy(f.providerId) && Truthy(f.date) && Truthy(f.time)
    ensures var first := Book(t, f, RemoteOracle, true);
            var second := Book(first.1, f, RemoteOracle, true);
            && first.0.status == 201 && second.0.status == 201
            && var a := second.1.rows[t.nextId];
               var b := second.1.rows[t.nextId + 1];
               && a.id != b.id
               && a.status == Booked && b.status == Booked
               && a.providerId == b.providerId && a.date == b.date && a.time == b.time
  {
    var first := Book(t, f, RemoteOracle, true);
    assert first.1.nextId == t.nextId + 1;
    var second := Book(first.1, f, RemoteOracle, true);
    assert second.1.rows[t.nextId] == first.1.rows[t.nextId];
  }

  /** Rescheduling onto a slot another BOOKED row holds succeeds as well. */
  lemma RescheduleOntoHeldSlot(t: Table, id: int, other: int)
    requires WellFormed(t) && id in t.rows && other in t.rows && id != other
    requires t.rows[other].status == Booked && t.rows[other].providerId == t.rows[id].providerId
    requires t.rows[id].providerId != "" && t.rows[other].date != "" && t.rows[other].time != ""
    ensures var r := Reschedule(t, id, Some(t.rows[other].date), Some(t.rows[other].time), RemoteOracle, true);
            && r.0.status == 200
            && r.1.rows[id].date == r.1.rows[other].date && r.1.rows[id].time == r.1.rows[other].time
            && r.1.rows[other].status == Booked
  {
  }

  /** The two bookings through the store object: both are accepted. */
  method BookTwice(store: AppointmentStore, f: Fields) returns (first: Reply, second: Reply)
    requires store.Valid()
    requires f.customerId.Some? && Truthy(f.providerId) && Truthy(f.date) && Truthy(f.time)
    modifies store
    ensures store.Valid()
    ensures first.status == 201 && second.status == 201
    ensures |store.rows.Keys| == |old(store.rows.Keys)| + 2
  {
    first := store.BookAppointment(f, RemoteOracle, true);
    second := store.BookAppointment(f, RemoteOracle, true);
  }
}
