/** The slot walk over one day's window (internal/domain/availability.go). */
module Availability {
  import opened Intervals
  import opened Assignment
  import opened Hours

  predicate SlotOpen(w: Window, st: ServiceType, s: DaySchedule, now: Instant, t: Instant) {
    now <= t && t + st.duration <= w.close && Select(s, st, NewInterval(t, st.duration)).Assigned?
  }

  function OpenTimes(w: Window, st: ServiceType, s: DaySchedule, now: Instant): Instant -> bool {
    t => SlotOpen(w, st, s, now, t)
  }

  /** The points start, start + g, ... up to last that pass the test. */
  function Walk(start: Instant, last: Instant, g: int, test: Instant -> bool): seq<Instant>
    requires g > 0
    decreases last - start + 1
  {
    if start > last then []
    else (if test(start) then [start] else []) + Walk(start + g, last, g, test)
  }

  function Slots(w: Window, st: ServiceType, s: DaySchedule, now: Instant, g: int): seq<Instant> {
    if g <= 0 || st.duration <= 0 then []
    else Walk(w.open, w.close - st.duration, g, OpenTimes(w, st, s, now))
  }

  method AvailableSlots(w: Window, st: ServiceType, s: DaySchedule, now: Instant, granularity: int)
    returns (slots: seq<Instant>)
    ensures slots == Slots(w, st, s, now, granularity)
  {
    slots := [];
    if granularity <= 0 || st.duration <= 0 {
      return;
    }
    ghost var test := OpenTimes(w, st, s, now);
    var start := w.open;
    while start + st.duration <= w.close
      invariant slots + Walk(start, w.close - st.duration, granularity, test) == Slots(w, st, s, now, granularity)
      decreases w.close - st.duration - start + 1
    {
      var at := start;
      start := start + granularity;
      if at < now {
        continue;
      }
      var v, _, _ := Assign(s, st, NewInterval(at, st.duration));
      if v.Refused? {
        continue;
      }
      slots := slots + [at];
    }
  }

  ghost predicate OnGrid(from: Instant, g: int, t: Instant) {
    exists k: nat :: t == from + k * g
  }

  lemma GridStep(from: Instant, g: int, t: Instant)
    requires g > 0
    ensures OnGrid(from, g, t) <==> t == from || OnGrid(from + g, g, t)
  {
    if OnGrid(from, g, t) && t != from {
      var k: nat :| t == from + k * g;
      assert t == from + g + (k - 1) * g;
    }
    if t == from {
      assert t == from + 0 * g;
    }
    if OnGrid(from + g, g, t) {
      var k: nat :| t == from + g + k * g;
      assert t == from + (k + 1) * g;
    }
  }

  lemma GridAhead(from: Instant, g: int, t: Instant)
    requires g > 0 && OnGrid(from, g, t)
    ensures t >= from
  {
    var k: nat :| t == from + k * g;
  }

  lemma {:induction false} WalkExact(start: Instant, last: Instant, g: int, test: Instant -> bool)
    requires g > 0
    ensures var r := Walk(start, last, g, test);
            && (forall t :: t in r <==> OnGrid(start, g, t) && t <= last && test(t))
            && (forall j, k :: 0 <= j < k < |r| ==> r[j] < r[k])
    decreases last - start + 1
  {
    var r := Walk(start, last, g, test);
    if start > last {
      forall t | OnGrid(start, g, t) ensures t > last {
        GridAhead(start, g, t);
      }
    } else {
      WalkExact(start + g, last, g, test);
      var rest := Walk(start + g, last, g, test);
      forall t ensures t in r <==> OnGrid(start, g, t) && t <= last && test(t) {
        GridStep(start, g, t);
      }
      forall k | 0 <= k < |rest| ensures start < rest[k] {
        GridAhead(start + g, g, rest[k]);
      }
    }
  }

  /** The result is the strictly ascending list of exactly the grid points of the window that are not
      in the past, leave room for the job before closing and can be assigned. */
  lemma SlotsExact(w: Window, st: ServiceType, s: DaySchedule, now: Instant, g: int)
    ensures var r := Slots(w, st, s, now, g);
            && (forall t :: t in r <==> g > 0 && st.duration > 0 && OnGrid(w.open, g, t) && SlotOpen(w, st, s, now, t))
            && (forall j, k :: 0 <= j < k < |r| ==> r[j] < r[k])
  {
    if g > 0 && st.duration > 0 {
      WalkExact(w.open, w.close - st.duration, g, OpenTimes(w, st, s, now));
    }
  }

  /** Every member of q has a counterpart in p with no more booked. */
  ghost predicate Fuller<R(!new)>(p: seq<Scheduled<R>>, q: seq<Scheduled<R>>) {
    forall y :: y in q ==> exists x :: x in p && LessBooked(x, y)
  }

  ghost predicate LessBooked<R>(x: Scheduled<R>, y: Scheduled<R>) {
    x.id == y.id && x.item == y.item && forall o :: o in x.booked ==> o in y.booked
  }

  ghost predicate BusierThan(s: DaySchedule, r: DaySchedule) {
    && Fuller(s.technicians, r.technicians) && Fuller(s.bays, r.bays)
    && forall o :: o in s.vehicleBooked ==> o in r.vehicleBooked
  }

  lemma BusierSelectsLess(s: DaySchedule, r: DaySchedule, st: ServiceType, iv: Interval)
    requires BusierThan(s, r) && Select(r, st, iv).Assigned?
    ensures Select(s, st, iv).Assigned?
  {
    SelectCharacterised(r, st, iv);
    var tech :| FreeTechnician(r, st, iv, tech);
    var tech' :| tech' in s.technicians && LessBooked(tech', tech);
    assert FreeTechnician(s, st, iv, tech');
    var bay :| FreeBay(r, st, iv, bay);
    var bay' :| bay' in s.bays && LessBooked(bay', bay);
    assert FreeBay(s, st, iv, bay');
    SelectCharacterised(s, st, iv);
  }

  /** Booking anything more can only remove slots; read from right to left, cancelling can only add them. */
  lemma SlotsAntitone(w: Window, st: ServiceType, s: DaySchedule, r: DaySchedule, now: Instant, g: int)
    requires BusierThan(s, r)
    ensures forall t :: t in Slots(w, st, r, now, g) ==> t in Slots(w, st, s, now, g)
  {
    SlotsExact(w, st, s, now, g);
    SlotsExact(w, st, r, now, g);
    forall t | t in Slots(w, st, r, now, g) ensures SlotOpen(w, st, s, now, t) {
      BusierSelectsLess(s, r, st, NewInterval(t, st.duration));
    }
  }
}
