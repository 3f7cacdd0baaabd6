/** The condition on calendars under which bookings lose no races is exact: in a dealership whose calendar
    does not meet it, a booking can lose one (scheduler.go Book, domain/hours.go). */
module Calendars {
  import opened Intervals
  import opened Policy
  import opened Assignment
  import opened Hours
  import opened Schema
  import opened Booking
  import opened Protocol
  import opened Tables
  import opened Races
  import opened Views

  // ----- One technician and one bay -----

  ghost predicate OnePair(shop: Shop) {
    shop.technicians == [TechnicianRow(0, 0, [0])] && shop.bays == [BayRow(0, 0, General)]
  }

  lemma OnlyPairListed(shop: Shop)
    requires OnePair(shop)
    ensures TechniciansAt(shop.technicians, 0) == shop.technicians && BaysAt(shop.bays, 0) == shop.bays
  {
    assert shop.technicians[..0] == [] && shop.bays[..0] == [];
  }

  /** Without rows in the day the only pair is selected. */
  lemma OnlyPairSelected(shop: Shop, rows: seq<Row>, q: ScheduleQuery, st: ServiceType, iv: Interval)
    requires OnePair(shop) && q.dealership == 0 && st.skill == 0 && st.bayType == General && iv.start < iv.end
    requires forall k :: 0 <= k < |rows| ==> !InDay(rows[k], q)
    ensures Select(DayScheduleOf(shop, rows, q), st, iv) == Assigned(0, 0)
  {
    OnlyPairListed(shop);
    NothingBooked(rows, q, TheTechnician(0));
    NothingBooked(rows, q, TheBay(0));
    if q.vehicle.Some? {
      NothingBooked(rows, q, TheVehicle(q.vehicle.value));
    }
    LowestPairSelected(DayScheduleOf(shop, rows, q), st, iv, 1, 1, 0, 0);
  }

  // ----- Two appointments that the calendar keeps from seeing each other -----

  /** A dealership with that calendar, one pair and two vehicles; the services take as long as the intervals. */
  function PairShop(dl: Dealership, a: Interval, b: Interval): Shop {
    Shop(map[0 := dl],
         map[0 := ServiceType(b.Duration(), 0, General),
             1 := ServiceType(if WholeLength(a) then a.Duration() else MINUTE, 0, General)],
         map[0 := VehicleRow(0, 0), 1 := VehicleRow(0, 0)], {0},
         [TechnicianRow(0, 0, [0])], [BayRow(0, 0, General)], 3, (d, k) => 0, (d, day) => day)
  }

  /** Service and vehicle n, for the interval, with a clock reading that is not past. */
  function RequestFor(n: Id, iv: Interval): Request {
    Request(0, n, n, iv.start, None, iv.start)
  }

  function RowOn(iv: Interval): Row {
    Row(0, 0, 1, 0, 1, 0, General, 0, 0, iv, Confirmed)
  }

  lemma PairShopIsGood(dl: Dealership, a: Interval, b: Interval)
    requires OpenFor(dl, a) && OpenFor(dl, b) && WholeLength(b)
    ensures ShopOk(PairShop(dl, a, b)) && OnePair(PairShop(dl, a, b))
  {
  }

  lemma RowIsGood(dl: Dealership, a: Interval, b: Interval)
    requires OpenFor(dl, a)
    ensures var shop := PairShop(dl, a, b); DbOk(shop, Db([RowOn(a)], map[])) && RowsInHours(shop, [RowOn(a)])
  {
    var shop := PairShop(dl, a, b);
    assert shop.technicians[0] in shop.technicians && shop.bays[0] in shop.bays;
    assert RowOk(shop, RowOn(a));
    assert InHours(shop, RowOn(a));
  }

  lemma RequestReady(dl: Dealership, a: Interval, b: Interval, n: Id, iv: Interval)
    requires (n == 0 && iv == b) || (n == 1 && iv == a && WholeLength(a))
    requires OpenFor(dl, iv)
    ensures var st, day := ServiceType(iv.Duration(), 0, General), DateOf(dl, iv.start);
            Check(PairShop(dl, a, b), RequestFor(n, iv))
            == Ready(Plan(st, iv, day, ScheduleQuery(0, Bounds(dl, day), Some(n)), 0))
  {
    assert NewInterval(iv.start, iv.Duration()) == iv;
    assert ValidateBookingTime(iv.start, iv.Duration(), iv.start, dl) == Slot(iv);
  }

  // ----- Runs up to the insert -----

  /** A keyless booking takes its day lock, sees an empty day and selects the only pair. */
  lemma UpToInsert(shop: Shop, init: State, evs: seq<Event>, s: State, i: nat, req: Request, plan: Plan)
    returns (more: seq<Event>, s': State, budget: nat)
    requires BookingsOnly(evs) && RunTo(shop, init, evs) == Some(s) && OnePair(shop)
    requires i < |s.txns| && s.txns[i] == Txn(req, Idle, None, None) && req.key.None? && Check(shop, req) == Ready(plan)
    requires shop.dayLock(req.dealership, plan.day) !in s.locks
    requires plan.query.dealership == 0 && plan.st.skill == 0 && plan.st.bayType == General
             && plan.iv.start < plan.iv.end
    requires forall k :: 0 <= k < |s.db.rows| ==> !InDay(s.db.rows[k], plan.query)
    ensures BookingsOnly(more) && RunTo(shop, init, more) == Some(s') && s'.db == s.db
    ensures s'.txns == s.txns[i := Txn(req, Inserting(0, budget, 0, 0), None, None)]
    ensures s'.locks == s.locks[shop.dayLock(req.dealership, plan.day) := i]
  {
    more, s' := Take(shop, init, evs, s, i, Start);
    more, s' := Take(shop, init, more, s', i, LockDay);
    OnlyPairSelected(shop, s'.db.rows, plan.query, plan.st, plan.iv);
    more, s' := Take(shop, init, more, s', i, Read);
    budget := s'.txns[i].phase.budget;
  }

  /** A committed row that overlaps but is not in the day: the lone booking's insert loses. */
  lemma HiddenRowBeats(dl: Dealership, a: Interval, b: Interval) returns (evs: seq<Event>)
    requires OpenFor(dl, a) && OpenFor(dl, b) && WholeLength(b) && a.Overlaps(b)
    requires !Bounds(dl, DateOf(dl, b.start)).Contains(a.start)
    ensures var shop, init := PairShop(dl, a, b), InitialState(Db([RowOn(a)], map[]), [RequestFor(0, b)]);
            && BookingsOnly(evs) && RunTo(shop, init, evs).Some?
            && |RunTo(shop, init, evs).value.txns| == 1 && CanAct(shop, RunTo(shop, init, evs).value, 0, Lose)
  {
    var shop, init := PairShop(dl, a, b), InitialState(Db([RowOn(a)], map[]), [RequestFor(0, b)]);
    PairShopIsGood(dl, a, b);
    RequestReady(dl, a, b, 0, b);
    var s, budget;
    evs, s, budget := UpToInsert(shop, init, [], init, 0, RequestFor(0, b), Check(shop, RequestFor(0, b)).plan);
    assert s.db.rows[0] == RowOn(a);
    assert Excludes(BayOverlap, RowFor(shop, s.txns[0], 0), RowOn(a));
  }

  lemma FirstInsert(shop: Shop, init: State, evs: seq<Event>, s: State, i: nat, req: Request, budget: nat)
    returns (more: seq<Event>, s': State)
    requires BookingsOnly(evs) && RunTo(shop, init, evs) == Some(s) && i < |s.txns| && Check(shop, req).Ready?
    requires s.txns[i] == Txn(req, Inserting(0, budget, 0, 0), None, None) && s.db.rows == []
    requires forall j :: 0 <= j < |s.txns| ==> s.txns[j].row.None?
    requires RowOk(shop, RowFor(shop, s.txns[i], 0))
    ensures BookingsOnly(more) && RunTo(shop, init, more) == Some(s') && s'.db == s.db && |s'.txns| == |s.txns|
    ensures s'.txns == s.txns[i := s'.txns[i]] && s'.txns[i].row == Some(RowFor(shop, s.txns[i], 0))
  {
    more, s' := Take(shop, init, evs, s, i, Insert(0));
  }

  /** Two overlapping requests on different dates hold different day locks: one meets the other's row. */
  lemma PendingRowBeats(dl: Dealership, a: Interval, b: Interval) returns (evs: seq<Event>)
    requires OpenFor(dl, a) && OpenFor(dl, b) && WholeLength(a) && WholeLength(b) && a.Overlaps(b)
    requires DateOf(dl, a.start) != DateOf(dl, b.start)
    ensures var shop, init := PairShop(dl, a, b), InitialState(Db([], map[]), [RequestFor(0, b), RequestFor(1, a)]);
            && BookingsOnly(evs) && RunTo(shop, init, evs).Some?
            && |RunTo(shop, init, evs).value.txns| == 2 && CanAct(shop, RunTo(shop, init, evs).value, 0, Lose)
  {
    var shop, init := PairShop(dl, a, b), InitialState(Db([], map[]), [RequestFor(0, b), RequestFor(1, a)]);
    PairShopIsGood(dl, a, b);
    RequestReady(dl, a, b, 0, b);
    RequestReady(dl, a, b, 1, a);
    var s, budget;
    evs, s, budget := UpToInsert(shop, init, [], init, 0, RequestFor(0, b), Check(shop, RequestFor(0, b)).plan);
    evs, s, budget := UpToInsert(shop, init, evs, s, 1, RequestFor(1, a), Check(shop, RequestFor(1, a)).plan);
    RowIsGood(dl, a, b);
    assert RowOk(shop, [RowOn(a)][0]);
    evs, s := FirstInsert(shop, init, evs, s, 1, RequestFor(1, a), budget);
    assert Excludes(BayOverlap, RowFor(shop, s.txns[0], 0), s.txns[1].row.value);
    assert MeetsPending(s, 0, RowFor(shop, s.txns[0], 0));
  }

  // ----- Theorem -----

  /** In a dealership with that calendar, starting from good tables, bookings alone can bring transaction i to
      the point where its insert loses. */
  ghost predicate RaceLost(dl: Dealership, shop: Shop, db: Db, reqs: seq<Request>, evs: seq<Event>, i: nat) {
    && shop.dealerships == map[0 := dl] && ShopOk(shop) && DbOk(shop, db) && RowsInHours(shop, db.rows)
    && BookingsOnly(evs)
    && var end := RunTo(shop, InitialState(db, reqs), evs);
       end.Some? && i < |end.value.txns| && CanAct(shop, end.value, i, Lose)
  }

  /** A calendar that does not fit loses a race. */
  lemma UnfitCalendarLoses(dl: Dealership) returns (shop: Shop, db: Db, reqs: seq<Request>, evs: seq<Event>)
    requires !CalendarFits(dl)
    ensures RaceLost(dl, shop, db, reqs, evs, 0)
  {
    var a, b :| OpenFor(dl, a) && OpenFor(dl, b) && WholeLength(b) && a.Overlaps(b)
                && !(Bounds(dl, DateOf(dl, b.start)).Contains(a.start)
                     && (WholeLength(a) ==> DateOf(dl, a.start) == DateOf(dl, b.start)));
    shop := PairShop(dl, a, b);
    PairShopIsGood(dl, a, b);
    if !Bounds(dl, DateOf(dl, b.start)).Contains(a.start) {
      db, reqs := Db([RowOn(a)], map[]), [RequestFor(0, b)];
      RowIsGood(dl, a, b);
      evs := HiddenRowBeats(dl, a, b);
    } else {
      db, reqs := Db([], map[]), [RequestFor(0, b), RequestFor(1, a)];
      evs := PendingRowBeats(dl, a, b);
    }
  }

  /** Bookings of a dealership never lose a race if and only if its calendar fits. */
  lemma CalendarIsExact(dl: Dealership)
    ensures CalendarFits(dl) <==> !exists shop, db, reqs, evs, i :: RaceLost(dl, shop, db, reqs, evs, i)
  {
    if shop, db, reqs, evs, i :| CalendarFits(dl) && RaceLost(dl, shop, db, reqs, evs, i) {
      assert shop.dealerships.Keys == {0};
      assert NoForeigners(evs);
      NoLostRaces(shop, db, reqs, evs);
    }
    if !CalendarFits(dl) {
      var shop, db, reqs, evs := UnfitCalendarLoses(dl);
    }
  }
}
