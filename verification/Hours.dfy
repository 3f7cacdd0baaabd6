/** Business hours, civil dates and the booking-time rules (internal/domain/hours.go). */
module Hours {
  import opened Intervals
  import opened Policy
  import opened Assignment

  const HOUR: int := 60 * MINUTE
  const DAY: int := 1440 * MINUTE

  /** Minutes after local midnight; the shop is open on [opensAt, closesAt). */
  datatype OpeningHours = OpeningHours(opensAt: int, closesAt: int)

  /** A time zone as the code uses it: the civil date of an instant, and the instant that
      time.Date gives for a date and a number of minutes. Dates are day numbers. */
  datatype Zone = Zone(dateOf: Instant -> int, wall: (int, int) -> Instant)

  datatype Dealership = Dealership(zone: Zone, hours: map<int, OpeningHours>)

  datatype Window = Window(open: Instant, close: Instant)

  datatype Timing = Slot(iv: Interval) | BadTime(code: Code)

  /** Day number 0 is 1970-01-01, a Thursday; Sunday is 0. */
  function Weekday(d: int): int { (d + 4) % 7 }

  function DateOf(dl: Dealership, t: Instant): int { dl.zone.dateOf(t) }

  function Bounds(dl: Dealership, d: int): Interval {
    Interval(dl.zone.wall(d, 0), dl.zone.wall(d + 1, 0))
  }

  function WindowOf(dl: Dealership, d: int): Option<Window> {
    if Weekday(d) in dl.hours then
      var oh := dl.hours[Weekday(d)];
      Some(Window(dl.zone.wall(d, oh.opensAt), dl.zone.wall(d, oh.closesAt)))
    else None
  }

  function ValidateBookingTime(start: Instant, duration: int, now: Instant, dl: Dealership): Timing {
    if start < now then BadTime(StartTimeInPast)
    else
      match WindowOf(dl, DateOf(dl, start))
      case None => BadTime(OutsideBusinessHours)
      case Some(w) =>
        if start < w.open || start >= w.close then BadTime(OutsideBusinessHours)
        else
          var iv := NewInterval(start, duration);
          if iv.end > w.close then BadTime(ServiceExceedsClosingTime) else Slot(iv)
  }

  /** An interval inside the opening window of the given date. */
  ghost predicate InsideHours(dl: Dealership, d: int, iv: Interval) {
    var w := WindowOf(dl, d);
    w.Some? && w.value.open <= iv.start && iv.end <= w.value.close
  }

  /** What the rest of the model needs of a dealership's clock: civil days do not run into each
      other, every opening window lies inside its own civil day, and an instant in the window of a
      date has that date. */
  ghost predicate ClockFits(dl: Dealership) {
    && (forall d, e :: d < e ==> Bounds(dl, d).end <= Bounds(dl, e).start)
    && (forall d :: WindowOf(dl, d).Some? ==>
          Bounds(dl, d).start <= WindowOf(dl, d).value.open && WindowOf(dl, d).value.close <= Bounds(dl, d).end)
    && (forall d, t :: WindowOf(dl, d).Some? && WindowOf(dl, d).value.open <= t < WindowOf(dl, d).value.close ==>
          DateOf(dl, t) == d)
  }

  /** A non-empty interval inside the opening window of the date on which it starts. */
  ghost predicate OpenFor(dl: Dealership, iv: Interval) {
    iv.start < iv.end && InsideHours(dl, DateOf(dl, iv.start), iv)
  }

  /** Whole minutes, as every service takes. */
  predicate WholeLength(iv: Interval) {
    iv.Duration() % MINUTE == 0
  }

  /** What bookings need to see each other: an open interval that overlaps one a service can be booked for
      starts within the bounds of that one's date; and if both can be booked for, they have the same date. */
  ghost predicate CalendarFits(dl: Dealership) {
    forall a, b :: OpenFor(dl, a) && OpenFor(dl, b) && WholeLength(b) && a.Overlaps(b) ==>
      && Bounds(dl, DateOf(dl, b.start)).Contains(a.start)
      && (WholeLength(a) ==> DateOf(dl, a.start) == DateOf(dl, b.start))
  }

  lemma ClockFitsCalendar(dl: Dealership)
    requires ClockFits(dl)
    ensures CalendarFits(dl)
  {
    forall a, b | OpenFor(dl, a) && OpenFor(dl, b) && a.Overlaps(b)
      ensures DateOf(dl, a.start) == DateOf(dl, b.start) && Bounds(dl, DateOf(dl, b.start)).Contains(a.start)
    {
      var d, e := DateOf(dl, a.start), DateOf(dl, b.start);
      assert d < e ==> Bounds(dl, d).end <= Bounds(dl, e).start;
      assert e < d ==> Bounds(dl, e).end <= Bounds(dl, d).start;
    }
  }

  /** A booking time is accepted exactly when it is not in the past and the job lies inside some
      date's opening window; the interval returned is [start, start + duration). */
  lemma AcceptedIffInsideSomeWindow(start: Instant, duration: int, now: Instant, dl: Dealership)
    requires ClockFits(dl) && duration > 0
    ensures ValidateBookingTime(start, duration, now, dl).Slot? <==>
              now <= start && exists d :: InsideHours(dl, d, NewInterval(start, duration))
    ensures ValidateBookingTime(start, duration, now, dl).Slot? ==>
              ValidateBookingTime(start, duration, now, dl).iv == NewInterval(start, duration)
    ensures ValidateBookingTime(start, duration, now, dl) == BadTime(StartTimeInPast) <==> start < now
    ensures ValidateBookingTime(start, duration, now, dl) == BadTime(ServiceExceedsClosingTime) <==>
              && now <= start
              && (exists d :: InsideHours(dl, d, NewInterval(start, 1)))
              && !exists d :: InsideHours(dl, d, NewInterval(start, duration))
    ensures ValidateBookingTime(start, duration, now, dl) == BadTime(OutsideBusinessHours) <==>
              now <= start && !exists d :: InsideHours(dl, d, NewInterval(start, 1))
  {
    var d := DateOf(dl, start);
    forall e | InsideHours(dl, e, NewInterval(start, duration)) || InsideHours(dl, e, NewInterval(start, 1))
      ensures e == d
    {
      assert DateOf(dl, start) == e;
    }
    if ValidateBookingTime(start, duration, now, dl).Slot? {
      assert InsideHours(dl, d, NewInterval(start, duration));
    }
    var timing := ValidateBookingTime(start, duration, now, dl);
    if timing.Slot? || timing == BadTime(ServiceExceedsClosingTime) {
      assert InsideHours(dl, d, NewInterval(start, 1));
    }
  }

  /** A zone with a constant offset from UTC. */
  function FixedOffset(offset: int): Zone {
    Zone(t => (t + offset) / DAY, (d, m) => d * DAY + m * MINUTE - offset)
  }

  /** In any zone: the past first, then the opening hours of the weekday on which the start falls there, from
      the instant of the opening time up to that of the closing time, then the closing time. */
  lemma DecidedByWallClock(start: Instant, duration: int, now: Instant, dl: Dealership)
    requires duration > 0
    ensures var date := dl.zone.dateOf(start);
            var weekday := (date + 4) % 7;
            ValidateBookingTime(start, duration, now, dl) ==
            if start < now then BadTime(StartTimeInPast)
            else if weekday !in dl.hours || start < dl.zone.wall(date, dl.hours[weekday].opensAt)
                    || dl.zone.wall(date, dl.hours[weekday].closesAt) <= start then BadTime(OutsideBusinessHours)
            else if dl.zone.wall(date, dl.hours[weekday].closesAt) < start + duration then
              BadTime(ServiceExceedsClosingTime)
            else Slot(Interval(start, start + duration))
  {
  }

  /** With a constant offset, in minutes of the day: accepted exactly from the opening time on and if the job
      is done by the closing time of the weekday on which it starts. */
  lemma DecidedByTimeOfDay(start: Instant, duration: int, now: Instant, offset: int, hours: map<int, OpeningHours>)
    requires duration > 0 && forall w :: w in hours ==> 0 <= hours[w].opensAt && hours[w].closesAt <= 1440
    ensures var weekday := ((start + offset) / DAY + 4) % 7;
            var time := (start + offset) % DAY;
            var timing := ValidateBookingTime(start, duration, now, Dealership(FixedOffset(offset), hours));
            && (timing.Slot? <==>
                  && now <= start && weekday in hours
                  && hours[weekday].opensAt * MINUTE <= time && time + duration <= hours[weekday].closesAt * MINUTE)
            && (timing.Slot? ==> timing.iv == Interval(start, start + duration))
            && (timing == BadTime(StartTimeInPast) <==> start < now)
            && (timing == BadTime(OutsideBusinessHours) <==>
                  now <= start && (weekday in hours ==> time < hours[weekday].opensAt * MINUTE
                                                        || hours[weekday].closesAt * MINUTE <= time))
            && (timing == BadTime(ServiceExceedsClosingTime) <==>
                  && now <= start && weekday in hours
                  && hours[weekday].opensAt * MINUTE <= time < hours[weekday].closesAt * MINUTE < time + duration)
  {
    DecidedByWallClock(start, duration, now, Dealership(FixedOffset(offset), hours));
    var date, time := (start + offset) / DAY, (start + offset) % DAY;
    assert start + offset == date * DAY + time;
  }

  /** Constant-offset zones meet the clock condition, whatever the opening hours within the day. */
  lemma FixedOffsetFits(offset: int, hours: map<int, OpeningHours>)
    requires forall w :: w in hours ==> 0 <= hours[w].opensAt && hours[w].closesAt <= 1440
    ensures ClockFits(Dealership(FixedOffset(offset), hours))
  {
    var dl := Dealership(FixedOffset(offset), hours);
    forall d, t | WindowOf(dl, d).Some? && WindowOf(dl, d).value.open <= t < WindowOf(dl, d).value.close
      ensures DateOf(dl, t) == d
    {
      var oh := hours[Weekday(d)];
      assert d * DAY + oh.opensAt * MINUTE <= t + offset < d * DAY + oh.closesAt * MINUTE;
      assert d * DAY <= t + offset < (d + 1) * DAY;
    }
  }
}
