/**
 * The booking page: the times offered for a chosen date, which dates the picker allows,
 * and the request body a booking sends.
 *
 * A calendar date is a day number counted from 1970-01-01, which was a Thursday.
 */
module AppointmentBooking {
  import opened Wrappers
  import opened FrontTypes
  import opened Seqs

  type Day = nat

  /** Weekday names, Sunday first, as the page formats a date's weekday. */
  const DayNames: seq<string> :=
    ["Sunday", "Monday", "Tuesday", "Wednesday", "Thursday", "Friday", "Saturday"]

  /** The weekday name of a date. */
  function WeekdayName(d: Day): (name: string)
    ensures name in DayNames
  {
    DayNames[(d + 4) % 7]
  }

  /** The calendar counted day by day: day 0 is a Thursday and each day moves one name on. */
  function WeekdayIndex(d: Day): (k: nat)
    ensures k < 7
  {
    if d == 0 then 4 else (WeekdayIndex(d - 1) + 1) % 7
  }

  /**
   * `WeekdayName` agrees with the day-by-day calendar: 1970-01-01 is a Thursday, each date
   * is named after its predecessor's successor, and names repeat every seven days.
   */
  lemma {:induction false} WeekdayCalendar(d: Day)
    ensures WeekdayName(0) == "Thursday"
    ensures WeekdayName(d) == DayNames[WeekdayIndex(d)]
    ensures WeekdayName(d + 1) == DayNames[(WeekdayIndex(d) + 1) % 7]
    ensures WeekdayName(d + 7) == WeekdayName(d)
  {
    WeekdayIndexCounts(d);
    WeekdayIndexCounts(d + 1);
    assert (d + 7 + 4) % 7 == (d + 4) % 7 by { assert d + 7 + 4 == (d + 4) + 7 * 1; }
  }

  /** Counting day by day from Thursday lands on (d + 4) mod 7. */
  lemma {:induction false} WeekdayIndexCounts(d: Day)
    ensures WeekdayIndex(d) == (d + 4) % 7
  {
    if d > 0 {
      WeekdayIndexCounts(d - 1);
      var q, m := (d + 3) / 7, (d + 3) % 7;
      assert d + 3 == 7 * q + m;
      if m < 6 {
        assert d + 4 == 7 * q + (m + 1);
      } else {
        assert d + 4 == 7 * (q + 1) + 0;
      }
    }
  }

  /** The step between two offered times: 30 minutes. */
  const Step := 30

  /** The times one rule offers: from `start`, every 30 minutes, while before `end`. */
  function RuleTimes(start: int, end: int): (times: seq<int>)
    ensures forall i :: 0 <= i < |times| ==> start <= times[i] < end
    decreases end - start
  {
    if start < end then [start] + RuleTimes(start + Step, end) else []
  }

  /**
   * A rule with end after start offers ceil((end - start) / 30) times, the k-th being
   * start + 30k, and a rule with end not after start offers none.
   */
  lemma {:induction false} RuleTimesShape(start: int, end: int)
    ensures |RuleTimes(start, end)| == if start < end then (end - start + Step - 1) / Step else 0
    ensures forall k :: 0 <= k < |RuleTimes(start, end)| ==> RuleTimes(start, end)[k] == start + Step * k
    decreases end - start
  {
    if start < end {
      RuleTimesShape(start + Step, end);
      var rest := RuleTimes(start + Step, end);
      assert RuleTimes(start, end) == [start] + rest;
      forall k | 1 <= k < |RuleTimes(start, end)|
        ensures RuleTimes(start, end)[k] == start + Step * k
      {
        assert RuleTimes(start, end)[k] == rest[k - 1];
      }
    }
  }

  /** Every offered time t satisfies start <= t < end with t - start a multiple of 30, and conversely. */
  lemma RuleTimesMembers(start: int, end: int, t: int)
    ensures t in RuleTimes(start, end) <==> start <= t < end && (t - start) % Step == 0
  {
    RuleTimesShape(start, end);
    var s := RuleTimes(start, end);
    if start <= t < end && (t - start) % Step == 0 {
      var k := (t - start) / Step;
      assert s[k] == t;
    }
  }

  /** The times offered by some rules: each rule's times, rule after rule, unsorted and with repeats. */
  function Expand(rules: seq<Availability>): seq<int>
  {
    if rules == [] then []
    else Expand(rules[..|rules| - 1]) + RuleTimes(rules[|rules| - 1].startTime, rules[|rules| - 1].endTime)
  }

  /** A time is offered exactly when one of the rules offers it. */
  lemma {:induction false} ExpandMembers(rules: seq<Availability>, t: int)
    ensures t in Expand(rules) <==>
              exists i :: 0 <= i < |rules| && t in RuleTimes(rules[i].startTime, rules[i].endTime)
  {
    if rules != [] {
      var init := rules[..|rules| - 1];
      ExpandMembers(init, t);
      assert forall i :: 0 <= i < |init| ==> init[i] == rules[i];
    }
  }

  /** The rules of one weekday, in their order. */
  function DayRules(rules: seq<Availability>, dayName: string): (r: seq<Availability>)
    ensures forall i :: 0 <= i < |r| ==> r[i].day == dayName
    ensures forall a :: a in rules && a.day == dayName ==> a in r
    ensures SubsequenceOf(r, rules)
  {
    Filter(rules, (a: Availability) => a.day == dayName)
  }

  /**
   * The effect that fills the offered times when a date or the provider changes: without
   * both the list is left as it was; otherwise it is the expansion of that weekday's rules.
   */
  method GenerateTimes(selectedDate: Option<Day>, provider: Option<Provider>, previous: seq<int>)
    returns (times: seq<int>)
    ensures selectedDate.None? || provider.None? ==> times == previous
    ensures selectedDate.Some? && provider.Some? ==>
              times == Expand(DayRules(provider.value.availability, WeekdayName(selectedDate.value)))
  {
    if selectedDate.None? || provider.None? {
      return previous;
    }
    var dayOfWeek := WeekdayName(selectedDate.value);
    var dayAvailability := DayRules(provider.value.availability, dayOfWeek);
    if |dayAvailability| == 0 {
      return [];
    }
    times := [];
    for i := 0 to |dayAvailability|
      invariant times == Expand(dayAvailability[..i])
    {
      var slot := dayAvailability[i];
      ghost var before := times;
      var currentTime: int := slot.startTime;
      while currentTime < slot.endTime
        invariant times + RuleTimes(currentTime, slot.endTime) == before + RuleTimes(slot.startTime, slot.endTime)
        decreases slot.endTime - currentTime
      {
        RuleTimesStep(times, currentTime, slot.endTime);
        times := times + [currentTime];
        currentTime := currentTime + Step;
      }
      assert RuleTimes(currentTime, slot.endTime) == [];
      assert times == before + RuleTimes(slot.startTime, slot.endTime);
      ExpandExtend(dayAvailability, i);
    }
    assert dayAvailability[..|dayAvailability|] == dayAvailability;
  }

  /** Emitting the current time and moving on by one step leaves the eventual list unchanged. */
  lemma RuleTimesStep(emitted: seq<int>, current: int, end: int)
    requires current < end
    ensures emitted + RuleTimes(current, end) == (emitted + [current]) + RuleTimes(current + Step, end)
  {
    assert RuleTimes(current, end) == [current] + RuleTimes(current + Step, end);
  }

  /** Expanding one more rule appends that rule's times. */
  lemma ExpandExtend(rules: seq<Availability>, i: nat)
    requires i < |rules|
    ensures Expand(rules[..i + 1]) == Expand(rules[..i]) + RuleTimes(rules[i].startTime, rules[i].endTime)
  {
    assert rules[..i + 1][..i] == rules[..i];
  }

  /** Every offered time lies in a rule of the chosen weekday, on that rule's 30-minute grid. */
  lemma OfferedTimesFitARule(rules: seq<Availability>, d: Day, t: int)
    requires t in Expand(DayRules(rules, WeekdayName(d)))
    ensures exists a :: a in rules && a.day == WeekdayName(d)
                        && a.startTime <= t < a.endTime && (t - a.startTime) % Step == 0
  {
    var day := DayRules(rules, WeekdayName(d));
    ExpandMembers(day, t);
    var i :| 0 <= i < |day| && t in RuleTimes(day[i].startTime, day[i].endTime);
    RuleTimesMembers(day[i].startTime, day[i].endTime, t);
    assert day[i] in day;
  }

  /** The picker allows a date only when a provider is loaded and has a rule for its weekday. */
  function FilterDate(provider: Option<Provider>, date: Day): (allowed: bool)
    ensures allowed <==> provider.Some? && |DayRules(provider.value.availability, WeekdayName(date))| > 0
  {
    if provider.None? then false
    else
      var rules := provider.value.availability;
      var hasDayAvailability := exists i :: 0 <= i < |rules| && rules[i].day == WeekdayName(date);
      var day := DayRules(rules, WeekdayName(date));
      assert hasDayAvailability <==> |day| > 0 by {
        if hasDayAvailability {
          var i :| 0 <= i < |rules| && rules[i].day == WeekdayName(date);
          assert rules[i] in day;
        }
        if |day| > 0 {
          assert day[0] in rules;
        }
      }
      hasDayAvailability
  }

  /** A date the picker refuses gets no offered times. */
  lemma RefusedDateOffersNothing(p: Provider, d: Day)
    requires !FilterDate(Some(p), d)
    ensures Expand(DayRules(p.availability, WeekdayName(d))) == []
  {
  }

  /** The body of a booking request. */
  datatype Payload = Payload(customerId: string, providerId: string, date: Day, time: string)

  /**
   * Booking: nothing is sent unless the route has a provider id, a date is chosen and a user
   * is signed in. The body always carries the time "03:00:00", whatever time was picked,
   * and the customer "user1" when the user has no id.
   */
  function BookingPayload(providerId: Option<string>, selectedDate: Option<Day>, user: Option<User>,
                          selectedTime: string): (r: Option<Payload>)
    ensures r.Some? <==> Truthy(providerId) && selectedDate.Some? && user.Some?
    ensures r.Some? ==>
              && r.value.time == "03:00:00"
              && r.value.providerId == providerId.value
              && r.value.date == selectedDate.value
              && (Truthy(user.value.id) ==> r.value.customerId == user.value.id.value)
              && (!Truthy(user.value.id) ==> r.value.customerId == "user1")
  {
    if !Truthy(providerId) || selectedDate.None? || user.None? then None
    else
      Some(Payload(if Truthy(user.value.id) then user.value.id.value else "user1",
                   providerId.value, selectedDate.value, "03:00:00"))
  }

  /** The picked time never reaches the request. */
  lemma PayloadIgnoresPickedTime(providerId: Option<string>, selectedDate: Option<Day>, user: Option<User>,
                                 t1: string, t2: string)
    ensures BookingPayload(providerId, selectedDate, user, t1) == BookingPayload(providerId, selectedDate, user, t2)
  {
  }
}
