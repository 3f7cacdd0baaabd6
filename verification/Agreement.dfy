/** Availability and booking give the same answer on the same state (scheduler.go Availability and Book). */
module Agreement {
  import opened Intervals
  import opened Policy
  import opened Assignment
  import opened Hours
  import opened Availability
  import opened Schema
  import opened Booking
  import opened Tables
  import opened Races
  import opened Retry
  import opened Service
  import opened Alone

  predicate OnDateGrid(shop: Shop, d: Id, date: int, g: int, t: Instant)
    requires d in shop.dealerships
  {
    var w := WindowOf(shop.dealerships[d], date);
    w.Some? && w.value.open <= t < w.value.close && g > 0 && (t - w.value.open) % g == 0
  }

  lemma GridByRemainder(from: Instant, g: int, t: Instant)
    requires g > 0
    ensures OnGrid(from, g, t) <==> t >= from && (t - from) % g == 0
  {
    if t >= from && (t - from) % g == 0 {
      var k := (t - from) / g;
      assert t == from + k * g && k >= 0;
    }
    if OnGrid(from, g, t) {
      var k: nat :| t == from + k * g;
      MultipleRemainder(k, g);
    }
  }

  lemma MultipleRemainder(k: nat, g: int)
    requires g > 0
    ensures (k * g) % g == 0
  {
    var q, r := (k * g) / g, (k * g) % g;
    assert (k - q) * g == r;
    if k - q >= 1 {
      AtLeastOnce(k - q, g);
    } else if k - q <= -1 {
      AtLeastOnce(q - k, g);
    }
  }

  lemma AtLeastOnce(n: int, g: int)
    requires n >= 1 && g > 0
    ensures n * g >= g
  {
    assert n * g == (n - 1) * g + g;
  }

  lemma ListedMeans(shop: Shop, rows: seq<Row>, d: Id, service: Id, vehicle: Id, date: int, now: Instant, g: int,
                    t: Instant)
    requires ShopOk(shop) && d in shop.dealerships && service in shop.services
             && WindowOf(shop.dealerships[d], date).Some?
    ensures var dl := shop.dealerships[d];
            t in SlotsOn(shop, rows, d, service, vehicle, date, now, g) <==>
            OnDateGrid(shop, d, date, g, t) &&
            SlotOpen(WindowOf(dl, date).value, shop.services[service],
                     DayScheduleOf(shop, rows, ScheduleQuery(d, Bounds(dl, date), Some(vehicle))), now, t)
  {
    var dl, st := shop.dealerships[d], shop.services[service];
    assert st.duration > 0;
    var w := WindowOf(dl, date).value;
    SlotsExact(w, st, DayScheduleOf(shop, rows, ScheduleQuery(d, Bounds(dl, date), Some(vehicle))), now, g);
    if g > 0 {
      GridByRemainder(w.open, g, t);
    }
  }

  /** In a date's window the checks come down to the past and the closing time. */
  lemma CheckedInWindow(shop: Shop, req: Request, date: int)
    requires ShopOk(shop) && ClocksFit(shop)
    requires req.dealership in shop.dealerships && req.service in shop.services
    requires req.vehicle in shop.vehicles && shop.vehicles[req.vehicle].dealership == req.dealership
    requires var w := WindowOf(shop.dealerships[req.dealership], date);
             w.Some? && w.value.open <= req.start < w.value.close
    ensures var dl, st := shop.dealerships[req.dealership], shop.services[req.service];
            && (Check(shop, req).Ready? <==>
                  req.now <= req.start && req.start + st.duration <= WindowOf(dl, date).value.close)
            && (Check(shop, req).Ready? ==>
                  var plan := Check(shop, req).plan;
                  plan.st == st && plan.iv == NewInterval(req.start, st.duration)
                  && plan.query == ScheduleQuery(req.dealership, Bounds(dl, date), Some(req.vehicle)))
  {
    var dl := shop.dealerships[req.dealership];
    assert ClockFits(dl);
    assert DateOf(dl, req.start) == date;
  }

  /** An instant is listed for a date exactly when it is a grid time of the date's window and the selection
      finds a pair for a request with that start, vehicle, service and clock reading. */
  lemma ListedIffSelected(shop: Shop, rows: seq<Row>, req: Request, date: int, g: int, id: Id)
    requires ShopOk(shop) && ClocksFit(shop)
    requires req.dealership in shop.dealerships && req.service in shop.services
    requires req.vehicle in shop.vehicles && shop.vehicles[req.vehicle].dealership == req.dealership
    ensures req.start in SlotsOn(shop, rows, req.dealership, req.service, req.vehicle, date, req.now, g) <==>
            && OnDateGrid(shop, req.dealership, date, g, req.start)
            && Check(shop, req).Ready? && Decide(shop, rows, req, Check(shop, req).plan, id).Booked?
  {
    var w := WindowOf(shop.dealerships[req.dealership], date);
    if w.Some? {
      ListedMeans(shop, rows, req.dealership, req.service, req.vehicle, date, req.now, g, req.start);
      if w.value.open <= req.start < w.value.close {
        CheckedInWindow(shop, req, date);
      }
    }
  }

  /** What Book, alone, answers to a request for a listed time, and to one for a grid time that is not
      listed. On any table whose rows meet the schema, a listed time is confirmed exactly if no row that
      starts outside the day holds the selected pair or the vehicle; if one does, the answer is CONTENTION. */
  lemma ListedIsConfirmedUnlessHidden(shop: Shop, db: Db, req: Request, date: int, g: int, id: Id)
    requires ShopOk(shop) && ClocksFit(shop) && (forall o :: o in db.rows ==> RowOk(shop, o)) && req.key.None?
    requires req.dealership in shop.dealerships && req.service in shop.services
    requires req.vehicle in shop.vehicles && shop.vehicles[req.vehicle].dealership == req.dealership
    requires OnDateGrid(shop, req.dealership, date, g, req.start)
    ensures var answer := BookUnder(shop, Quiet(db, id), req);
            && answer.Answer?
            && if req.start in SlotsOn(shop, db.rows, req.dealership, req.service, req.vehicle, date, req.now, g) then
                 && Check(shop, req).Ready? && Decide(shop, db.rows, req, Check(shop, req).plan, id).Booked?
                 && var plan := Check(shop, req).plan;
                    var row := Decide(shop, db.rows, req, plan, id).row;
                    if exists o :: HiddenRow(db.rows, plan.query, row, o) then answer == Answer(CONTENDED, None, None)
                    else answer == Answer(Booked(row), Some(row), None)
               else answer.outcome.Rejected? && !Contends(answer.outcome)
  {
    ListedIffSelected(shop, db.rows, req, date, g, id);
    BookAlone(shop, db, req, id);
    if Check(shop, req).Ready? {
      if Decide(shop, db.rows, req, Check(shop, req).plan, id).Booked? {
        ViolationIsHidden(shop, db.rows, req, id);
      } else {
        DecisionNeverContends(shop, db.rows, req, id);
      }
    } else {
      CheckNeverContends(shop, req);
    }
  }

  lemma DecisionNeverContends(shop: Shop, rows: seq<Row>, req: Request, id: Id)
    requires Check(shop, req).Ready?
    ensures !Contends(Decide(shop, rows, req, Check(shop, req).plan, id))
  {
    var plan := Check(shop, req).plan;
    SelectCharacterised(DayScheduleOf(shop, rows, plan.query), plan.st, plan.iv);
  }

  lemma CheckNeverContends(shop: Shop, req: Request)
    requires Check(shop, req).Invalid?
    ensures !Contends(Rejected(Check(shop, req).error))
  {
  }

  /** On good tables, an instant is listed for a date exactly when it is a grid time of the date's window and
      Book, asked then for that vehicle and service with the same clock reading, confirms it. */
  lemma ListedIffBookable(shop: Shop, db: Db, req: Request, date: int, g: int, id: Id)
    requires ShopOk(shop) && ClocksFit(shop) && DbOk(shop, db) && RowsInHours(shop, db.rows) && req.key.None?
    requires req.dealership in shop.dealerships && req.service in shop.services
    requires req.vehicle in shop.vehicles && shop.vehicles[req.vehicle].dealership == req.dealership
    ensures var answer := BookUnder(shop, Quiet(db, id), req);
            && answer.Answer?
            && (req.start in SlotsOn(shop, db.rows, req.dealership, req.service, req.vehicle, date, req.now, g) <==>
                OnDateGrid(shop, req.dealership, date, g, req.start) && answer.outcome.Booked?)
  {
    ClocksFitCalendars(shop);
    ListedIffSelected(shop, db.rows, req, date, g, id);
    BookAlone(shop, db, req, id);
    if Check(shop, req).Ready? && Decide(shop, db.rows, req, Check(shop, req).plan, id).Booked? {
      SelectedRowAccepted(shop, db.rows, req, id);
    }
  }

  lemma MoreBooked(a: seq<Row>, b: seq<Row>, q: ScheduleQuery, res: Resource)
    requires forall r :: r in a && r.status == Confirmed ==> r in b
    ensures forall iv :: iv in BookedFor(a, q, res) ==> iv in BookedFor(b, q, res)
  {
    BookedForMembers(a, q, res);
    BookedForMembers(b, q, res);
  }

  lemma MoreRowsBusierDay(shop: Shop, a: seq<Row>, b: seq<Row>, q: ScheduleQuery)
    requires forall r :: r in a && r.status == Confirmed ==> r in b
    ensures BusierThan(DayScheduleOf(shop, a, q), DayScheduleOf(shop, b, q))
  {
    var s, r := DayScheduleOf(shop, a, q), DayScheduleOf(shop, b, q);
    forall y | y in r.technicians ensures exists x :: x in s.technicians && LessBooked(x, y) {
      var k :| 0 <= k < |r.technicians| && r.technicians[k] == y;
      MoreBooked(a, b, q, TheTechnician(y.id));
      assert s.technicians[k] in s.technicians && LessBooked(s.technicians[k], y);
    }
    forall y | y in r.bays ensures exists x :: x in s.bays && LessBooked(x, y) {
      var k :| 0 <= k < |r.bays| && r.bays[k] == y;
      MoreBooked(a, b, q, TheBay(y.id));
      assert s.bays[k] in s.bays && LessBooked(s.bays[k], y);
    }
    if q.vehicle.Some? {
      MoreBooked(a, b, q, TheVehicle(q.vehicle.value));
    }
  }

  /** A table with more confirmed rows never offers a slot that one with fewer does not: booking only
      removes slots and cancelling only adds them, for any date, vehicle and service. */
  lemma MoreRowsFewerSlots(shop: Shop, a: seq<Row>, b: seq<Row>, d: Id, service: Id, vehicle: Id, date: int,
                           now: Instant, g: int)
    requires d in shop.dealerships && service in shop.services
    requires forall r :: r in a && r.status == Confirmed ==> r in b
    ensures forall t :: t in SlotsOn(shop, b, d, service, vehicle, date, now, g) ==>
              t in SlotsOn(shop, a, d, service, vehicle, date, now, g)
  {
    var dl := shop.dealerships[d];
    if WindowOf(dl, date).Some? {
      var q := ScheduleQuery(d, Bounds(dl, date), Some(vehicle));
      MoreRowsBusierDay(shop, a, b, q);
      SlotsAntitone(WindowOf(dl, date).value, shop.services[service], DayScheduleOf(shop, a, q),
                    DayScheduleOf(shop, b, q), now, g);
    }
  }
}
