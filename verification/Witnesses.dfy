/** Where the conditions of the theorems are needed: what the code does when they fail. */
module Witnesses {
  import opened Intervals
  import opened Policy
  import opened Assignment
  import opened Hours
  import opened Schema
  import opened Booking
  import opened Protocol
  import opened Safety
  import opened Tables
  import opened Races
  import opened Serial
  import opened LastSlots
  import opened Balance
  import opened Service
  import opened Alone
  import opened Agreement
  import opened Progress
  import opened Calendars

  // ----- Clocks -----

  /** A zone whose clocks jump from 24:00 of day 0 to 01:00 of day 1. Midnight of day 1 does not exist;
      as time.Date does for zones west of Greenwich, it is resolved to 23:00 of day 0. */
  function MidnightGap(): Zone {
    Zone(t => if t < DAY then t / DAY else (t + HOUR) / DAY,
         (d, m) => if d * DAY + m * MINUTE < DAY then d * DAY + m * MINUTE else d * DAY + m * MINUTE - HOUR)
  }

  /** One technician, one bay; day 0 is a Thursday, open until 23:59. */
  function LateShop(): Shop {
    Shop(map[0 := Dealership(MidnightGap(), map[4 := OpeningHours(480, 1439)])],
         map[0 := ServiceType(30 * MINUTE, 0, General)],
         map[0 := VehicleRow(0, 0), 1 := VehicleRow(0, 0)], {0},
         [TechnicianRow(0, 0, [0])], [BayRow(0, 0, General)], 3, (d, k) => 0, (d, day) => 1)
  }

  /** An appointment at 23:10 on day 0. */
  const LATE: Row := Row(0, 0, 0, 0, 0, 0, General, 0, 0, Interval(1390 * MINUTE, 1420 * MINUTE), Confirmed)

  lemma LateShopIsGood()
    ensures ShopOk(LateShop()) && DbOk(LateShop(), Db([LATE], map[])) && RowsInHours(LateShop(), [LATE])
  {
    var shop := LateShop();
    assert shop.technicians[0] in shop.technicians && shop.bays[0] in shop.bays;
    assert RowOk(shop, LATE);
    assert InHours(shop, LATE);
  }

  lemma LateRequestReady()
    ensures var req := Request(0, 1, 0, 1390 * MINUTE, None, 0);
            Check(LateShop(), req) ==
            Ready(Plan(ServiceType(30 * MINUTE, 0, General), LATE.iv, 0,
                       ScheduleQuery(0, Interval(0, 1380 * MINUTE), Some(1)), 0))
  {
  }

  /** A row that overlaps the request's interval on the selected bay, wherever the schedule looked. */
  lemma MissedRowContends(shop: Shop, db: Db, req: Request, id: Id, o: Row, v: Verdict)
    requires ShopOk(shop) && Check(shop, req).Ready? && LiveRecord(db.records, req).None?
    requires var plan := Check(shop, req).plan; v == Select(DayScheduleOf(shop, db.rows, plan.query), plan.st, plan.iv)
    requires v.Assigned? && o in db.rows && o.status == Confirmed && o.bay == v.bay
    requires RangesOverlap(Check(shop, req).plan.iv, o.iv)
    ensures BookUnder(shop, Quiet(db, id), req) == Answer(CONTENDED, None, None)
  {
    BookAlone(shop, db, req, id);
    assert Excludes(BayOverlap, NewRow(req, Check(shop, req).plan, v.technician, v.bay, id), o);
  }

  lemma LateClockMisfits()
    ensures !CalendarsFit(LateShop())
  {
    var dl := LateShop().dealerships[0];
    assert OpenFor(dl, LATE.iv) && LATE.iv.Overlaps(LATE.iv) && WholeLength(LATE.iv);
    assert !Bounds(dl, DateOf(dl, LATE.iv.start)).Contains(LATE.iv.start);
  }

  lemma LateSelection(shop: Shop, req: Request)
    requires shop == LateShop() && req == Request(0, 1, 0, 1390 * MINUTE, None, 0)
    ensures Check(shop, req).Ready? && Check(shop, req).plan.iv == LATE.iv
    ensures var plan := Check(shop, req).plan;
            Select(DayScheduleOf(shop, [LATE], plan.query), plan.st, plan.iv) == Assigned(0, 0)
  {
    LateRequestReady();
    var plan := Check(shop, req).plan;
    OnlyPairSelected(shop, [LATE], plan.query, plan.st, plan.iv);
  }

  lemma LateContends(shop: Shop, db: Db, req: Request)
    requires ShopOk(shop) && db.rows == [LATE] && req.key.None? && Check(shop, req).Ready?
             && Check(shop, req).plan.iv == LATE.iv
    requires var plan := Check(shop, req).plan;
             Select(DayScheduleOf(shop, [LATE], plan.query), plan.st, plan.iv) == Assigned(0, 0)
    ensures BookUnder(shop, Quiet(db, 1), req) == Answer(CONTENDED, None, None)
  {
    assert db.rows[0] == LATE;
    MissedRowContends(shop, db, req, 1, LATE, Assigned(0, 0));
  }

  /** The condition on clocks is needed: where midnight does not exist, an appointment after 23:00 falls
      out of its own day's bounds, so the next request for that hour does not see it, keeps losing to
      it and is told CONTENTION, although every table is in order and nobody else is writing. */
  lemma MissingMidnightContends() returns (shop: Shop, db: Db, req: Request)
    ensures ShopOk(shop) && DbOk(shop, db) && RowsInHours(shop, db.rows) && !CalendarsFit(shop)
    ensures Check(shop, req).Ready? && BookUnder(shop, Quiet(db, 1), req) == Answer(CONTENDED, None, None)
  {
    shop, db, req := LateShop(), Db([LATE], map[]), Request(0, 1, 0, 1390 * MINUTE, None, 0);
    LateShopIsGood();
    LateClockMisfits();
    LateSelection(shop, req);
    LateContends(shop, db, req);
  }

  // ----- Clock readings that go back -----

  /** A vehicle with a row of the same interval in the table is not booked for it again. */
  lemma OwnRowRefuses(shop: Shop, rows: seq<Row>, r: Row, req: Request)
    requires ShopOk(shop) && ClocksFit(shop) && Check(shop, req).Ready?
    requires r in rows && r.status == Confirmed && r.dealership == req.dealership && r.vehicle == req.vehicle
             && r.iv == Check(shop, req).plan.iv
    ensures var plan := Check(shop, req).plan;
            var v := Select(DayScheduleOf(shop, rows, plan.query), plan.st, plan.iv);
            v.Refused? && Durable(v.error)
  {
    CheckedRequest(shop, req);
    NewRowInHours(shop, r, req);
    var plan := Check(shop, req).plan;
    StartsInItsDay(shop, r, plan.day);
    BookedForMembers(rows, plan.query, TheVehicle(req.vehicle));
    assert InDay(r, plan.query) && Uses(r, TheVehicle(req.vehicle));
    assert r.iv in BookedFor(rows, plan.query, TheVehicle(req.vehicle));
    SelectCharacterised(DayScheduleOf(shop, rows, plan.query), plan.st, plan.iv);
  }

  /** A confirmed request leaves its row. */
  lemma ConfirmedUse(shop: Shop, db: Db, req: Request, id: Id) returns (after: Db, row: Row)
    requires ShopOk(shop) && req.key.Some? && Check(shop, req).Ready? && LiveRecord(db.records, req).None?
    requires BookUnder(shop, Quiet(db, id), req).Answer? && BookUnder(shop, Quiet(db, id), req).outcome.Booked?
    ensures after == AfterBook(shop, db, req, id) && after.rows == db.rows + [row]
    ensures after.records == db.records[(req.dealership, req.key.value) := RecordOf(req, Booked(row))]
    ensures row.status == Confirmed && row.dealership == req.dealership && row.vehicle == req.vehicle
    ensures row.iv.start == req.start && row.iv.Duration() == shop.services[req.service].duration
  {
    CheckedRequest(shop, req);
    BookAlone(shop, db, req, id);
    after, row := AfterBook(shop, db, req, id), BookUnder(shop, Quiet(db, id), req).outcome.row;
  }

  /** A refused request leaves its record and no row. */
  lemma RefusedUse(shop: Shop, db: Db, req: Request, id: Id, e: DomainError) returns (after: Db)
    requires ShopOk(shop) && req.key.Some? && Check(shop, req).Ready? && LiveRecord(db.records, req).None?
    requires Decide(shop, db.rows, req, Check(shop, req).plan, id) == Rejected(e)
    ensures BookUnder(shop, Quiet(db, id), req) == Answer(Rejected(e), None, Some(RecordOf(req, Rejected(e))))
    ensures after == AfterBook(shop, db, req, id)
    ensures after.records == db.records[(req.dealership, req.key.value) := RecordOf(req, Rejected(e))]
  {
    BookAlone(shop, db, req, id);
    after := AfterBook(shop, db, req, id);
  }

  lemma StoredRefusal(shop: Shop, db: Db, req: Request, id: Id, rec: Record, e: DomainError)
    requires ShopOk(shop) && Check(shop, req).Ready? && LiveRecord(db.records, req) == Some(rec)
    requires rec.fingerprint == FingerprintOf(req) && rec.appointment.None?
    requires rec.errorCode == Some(e.code) && rec.conflicting == e.conflicting
    ensures BookUnder(shop, Quiet(db, id), req) == Answer(Rejected(e), None, None)
  {
    BookAlone(shop, db, req, id);
  }

  /** Stable replay needs clock readings in commit order. A key is used, expires and is used again; a
      request that read its clock before the expiry but commits last is answered with the newer
      record: it repeats a request that was confirmed, and hears that nothing is free. */
  lemma DelayedRepeatMissesItsRecord(shop: Shop, db: Db, a: Request, c: Request, b: Request, id: Id)
    returns (db1: Db, db2: Db, e: DomainError)
    requires a.key.Some? && c == a.(now := c.now) && b == a.(now := b.now)
    requires b.now < a.now + RETENTION <= c.now
    requires ShopOk(shop) && ClocksFit(shop) && Check(shop, a).Ready? && Check(shop, b).Ready? && Check(shop, c).Ready?
    requires LiveRecord(db.records, a).None?
    requires BookUnder(shop, Quiet(db, id), a).Answer? && BookUnder(shop, Quiet(db, id), a).outcome.Booked?
    ensures db1 == AfterBook(shop, db, a, id) && db2 == AfterBook(shop, db1, c, id) && Durable(e)
    ensures BookUnder(shop, Quiet(db1, id), c) == Answer(Rejected(e), None, Some(RecordOf(c, Rejected(e))))
    ensures BookUnder(shop, Quiet(db2, id), b) == Answer(Rejected(e), None, None)
  {
    var row: Row;
    db1, row := ConfirmedUse(shop, db, a, id);
    e := SecondUseRefused(shop, db1, c, id, row, |db.rows|);
    db2 := RefusedUse(shop, db1, c, id, e);
    StoredRefusal(shop, db2, b, id, RecordOf(c, Rejected(e)), e);
  }

  lemma SecondUseRefused(shop: Shop, db: Db, req: Request, id: Id, row: Row, k: nat) returns (e: DomainError)
    requires ShopOk(shop) && ClocksFit(shop) && Check(shop, req).Ready? && k < |db.rows| && db.rows[k] == row
    requires row.status == Confirmed && row.dealership == req.dealership && row.vehicle == req.vehicle
    requires row.iv.start == req.start && row.iv.Duration() == shop.services[req.service].duration
    ensures Decide(shop, db.rows, req, Check(shop, req).plan, id) == Rejected(e) && Durable(e)
  {
    CheckedRequest(shop, req);
    OwnRowRefuses(shop, db.rows, row, req);
    e := Decide(shop, db.rows, req, Check(shop, req).plan, id).error;
  }

  // ----- Colliding locks -----

  /** The first n members of the cycle hold their key locks and want their day locks; nobody else has begun. */
  ghost predicate Standing(db: Db, reqs: seq<Request>, cycle: seq<nat>, locks: seq<LockId>, n: nat, s: State)
    requires n <= |cycle| == |locks| && forall m :: 0 <= m < |cycle| ==> cycle[m] < |reqs|
  {
    && s.db == db && |s.txns| == |reqs|
    && (forall m :: 0 <= m < n ==> s.txns[cycle[m]] == Txn(reqs[cycle[m]], WantDay, None, None))
    && (forall m :: 0 <= m < n ==> Holds(s.locks, locks[m], cycle[m]))
    && (forall i :: 0 <= i < |reqs| && i !in cycle[..n] ==> s.txns[i] == Txn(reqs[i], Idle, None, None))
    && (forall l :: l in s.locks ==> l in locks[..n])
  }

  /** One transaction takes its key lock and finds no live record. */
  lemma UpToDayLock(shop: Shop, init: State, evs: seq<Event>, s: State, i: nat, req: Request)
    returns (more: seq<Event>, s': State)
    requires BookingsOnly(evs) && RunTo(shop, init, evs) == Some(s) && i < |s.txns|
             && s.txns[i] == Txn(req, Idle, None, None)
    requires TakesBothLocks(shop, s.db.records, req) && KeyLockOf(shop, req) !in s.locks
    ensures BookingsOnly(more) && RunTo(shop, init, more) == Some(s')
    ensures s'.db == s.db && s'.txns == s.txns[i := Txn(req, WantDay, None, None)]
            && s'.locks == s.locks[KeyLockOf(shop, req) := i]
  {
    more, s' := Take(shop, init, evs, s, i, Start);
    more, s' := Take(shop, init, more, s', i, LockKey);
    more, s' := Take(shop, init, more, s', i, Find);
  }

  /** The key locks of a cycle's members. */
  lemma KeyLocks(shop: Shop, records: map<(Id, Key), Record>, reqs: seq<Request>, cycle: seq<nat>)
    returns (locks: seq<LockId>)
    requires LockCycle(shop, records, reqs, cycle)
    ensures |locks| == |cycle| && forall m :: 0 <= m < |cycle| ==>
              reqs[cycle[m]].key.Some? && locks[m] == KeyLockOf(shop, reqs[cycle[m]])
    ensures forall m, n :: 0 <= m < n < |locks| ==> locks[m] != locks[n]
  {
    locks := seq(|cycle|, m requires 0 <= m < |cycle|
                 && TakesBothLocks(shop, records, reqs[cycle[m]]) => KeyLockOf(shop, reqs[cycle[m]]));
  }

  lemma OneMoreStands(db: Db, reqs: seq<Request>, cycle: seq<nat>, locks: seq<LockId>, n: nat, s: State, s': State)
    requires n < |cycle| == |locks| && forall m :: 0 <= m < |cycle| ==> cycle[m] < |reqs|
    requires forall m, k :: 0 <= m < k < |cycle| ==> cycle[m] != cycle[k]
    requires forall m, k :: 0 <= m < k < |locks| ==> locks[m] != locks[k]
    requires Standing(db, reqs, cycle, locks, n, s)
    requires s'.db == s.db && s'.txns == s.txns[cycle[n] := Txn(reqs[cycle[n]], WantDay, None, None)]
    requires s'.locks == s.locks[locks[n] := cycle[n]]
    ensures Standing(db, reqs, cycle, locks, n + 1, s')
  {
    assert cycle[..n + 1] == cycle[..n] + [cycle[n]];
    assert locks[..n + 1] == locks[..n] + [locks[n]];
  }

  lemma {:induction false} StandUp(shop: Shop, db: Db, reqs: seq<Request>, cycle: seq<nat>, locks: seq<LockId>, n: nat)
    returns (evs: seq<Event>, s: State)
    requires n <= |cycle| == |locks| && forall m :: 0 <= m < |cycle| ==> cycle[m] < |reqs|
    requires forall m, k :: 0 <= m < k < |cycle| ==> cycle[m] != cycle[k]
    requires forall m, k :: 0 <= m < k < |locks| ==> locks[m] != locks[k]
    requires forall m :: 0 <= m < |cycle| ==>
               TakesBothLocks(shop, db.records, reqs[cycle[m]]) && locks[m] == KeyLockOf(shop, reqs[cycle[m]])
    ensures BookingsOnly(evs) && RunTo(shop, InitialState(db, reqs), evs) == Some(s)
            && Standing(db, reqs, cycle, locks, n, s)
  {
    if n == 0 {
      evs, s := [], InitialState(db, reqs);
    } else {
      var before, m := StandUp(shop, db, reqs, cycle, locks, n - 1);
      assert cycle[n - 1] !in cycle[..n - 1] && locks[n - 1] !in locks[..n - 1];
      evs, s := UpToDayLock(shop, InitialState(db, reqs), before, m, cycle[n - 1], reqs[cycle[n - 1]]);
      OneMoreStands(db, reqs, cycle, locks, n - 1, m, s);
    }
  }

  lemma StandingWaits(shop: Shop, db: Db, reqs: seq<Request>, cycle: seq<nat>, locks: seq<LockId>, s: State, m: nat,
                      n: nat)
    requires LockCycle(shop, db.records, reqs, cycle) && m < |cycle| && n == (if m + 1 < |cycle| then m + 1 else 0)
    requires |locks| == |cycle| && locks[n] == KeyLockOf(shop, reqs[cycle[n]])
             && Standing(db, reqs, cycle, locks, |cycle|, s)
    ensures WaitsFor(shop, s, cycle[m], cycle[n])
  {
    assert Collides(shop, reqs[cycle[m]], reqs[cycle[n]]);
    assert Holds(s.locks, locks[n], cycle[n]);
  }

  /** Every lock cycle among the requests can bring its members to wait for each other in a circle, so
      the condition of Progress.NoWaitCycle is exact. */
  lemma LockCycleDeadlocks(shop: Shop, db: Db, reqs: seq<Request>, cycle: seq<nat>) returns (evs: seq<Event>)
    requires LockCycle(shop, db.records, reqs, cycle)
    ensures BookingsOnly(evs) && RunTo(shop, InitialState(db, reqs), evs).Some?
    ensures WaitCycle(shop, RunTo(shop, InitialState(db, reqs), evs).value, cycle + [cycle[0]])
  {
    var locks := KeyLocks(shop, db.records, reqs, cycle);
    var s: State;
    evs, s := StandUp(shop, db, reqs, cycle, locks, |cycle|);
    var path := cycle + [cycle[0]];
    forall m, n | 0 <= m < |path| && n == m + 1 < |path| ensures WaitsFor(shop, s, path[m], path[n]) {
      StandingWaits(shop, db, reqs, cycle, locks, s, m, if n < |cycle| then n else 0);
    }
  }

  // ----- A concrete dealership -----

  /** One technician, one bay, open all Thursday. Keys are their own lock identifiers; the day lock of day
      7 is the identifier of key 1, that of every other day the identifier of key 0. */
  function SmallShop(): Shop {
    Shop(map[0 := Dealership(FixedOffset(0), map[4 := OpeningHours(0, 1440)])],
         map[0 := ServiceType(30 * MINUTE, 0, General)],
         map[0 := VehicleRow(0, 0)], {0},
         [TechnicianRow(0, 0, [0])], [BayRow(0, 0, General)], 3, (d, k) => k, (d, day) => if day == 7 then 1 else 0)
  }

  /** A request for the beginning of that day. */
  function OnDay(day: int, key: Key, now: Instant): Request {
    Request(0, 0, 0, day * DAY, Some(key), now)
  }

  lemma SmallShopIsGood()
    ensures ShopOk(SmallShop()) && ClocksFit(SmallShop())
  {
    FixedOffsetFits(0, map[4 := OpeningHours(0, 1440)]);
    assert SmallShop().dealerships.Keys == {0};
  }

  lemma ThursdayReady(day: int, key: Key, now: Instant)
    requires Weekday(day) == 4 && now <= day * DAY
    ensures Check(SmallShop(), OnDay(day, key, now)) ==
            Ready(Plan(ServiceType(30 * MINUTE, 0, General), Interval(day * DAY, day * DAY + 30 * MINUTE), day,
                       ScheduleQuery(0, Interval(day * DAY, (day + 1) * DAY), Some(0)), 0))
  {
    var dl := SmallShop().dealerships[0];
    assert DateOf(dl, day * DAY) == day;
    assert ValidateBookingTime(day * DAY, 30 * MINUTE, now, dl) == Slot(Interval(day * DAY, day * DAY + 30 * MINUTE));
  }

  lemma FirstSelected(req: Request)
    requires req == OnDay(7, 0, 0)
    ensures Check(SmallShop(), req).Ready?
    ensures var plan := Check(SmallShop(), req).plan;
            Select(DayScheduleOf(SmallShop(), [], plan.query), plan.st, plan.iv) == Assigned(0, 0)
  {
    ThursdayReady(7, 0, 0);
    var plan := Check(SmallShop(), req).plan;
    OnlyPairSelected(SmallShop(), [], plan.query, plan.st, plan.iv);
  }

  lemma EmptyTableConfirms(shop: Shop, db: Db, req: Request, id: Id)
    requires ShopOk(shop) && Check(shop, req).Ready? && LiveRecord(db.records, req).None? && db.rows == []
    requires var plan := Check(shop, req).plan;
             Select(DayScheduleOf(shop, db.rows, plan.query), plan.st, plan.iv).Assigned?
    ensures BookUnder(shop, Quiet(db, id), req).Answer? && BookUnder(shop, Quiet(db, id), req).outcome.Booked?
  {
    BookAlone(shop, db, req, id);
  }

  /** On an empty table the first of the three is confirmed. */
  lemma RepeatOnEmptyTable(shop: Shop, db: Db, a: Request, c: Request, b: Request)
    returns (db1: Db, db2: Db, e: DomainError)
    requires a.key.Some? && c == a.(now := c.now) && b == a.(now := b.now)
    requires b.now < a.now + RETENTION <= c.now && db.rows == [] && LiveRecord(db.records, a).None?
    requires ShopOk(shop) && ClocksFit(shop)
    requires Check(shop, a).Ready? && Check(shop, b).Ready? && Check(shop, c).Ready?
    requires var plan := Check(shop, a).plan;
             Select(DayScheduleOf(shop, db.rows, plan.query), plan.st, plan.iv).Assigned?
    ensures BookUnder(shop, Quiet(db, 0), a).Answer? && BookUnder(shop, Quiet(db, 0), a).outcome.Booked?
    ensures db1 == AfterBook(shop, db, a, 0) && db2 == AfterBook(shop, db1, c, 0) && Durable(e)
    ensures BookUnder(shop, Quiet(db2, 0), b) == Answer(Rejected(e), None, None)
  {
    EmptyTableConfirms(shop, db, a, 0);
    db1, db2, e := DelayedRepeatMissesItsRecord(shop, db, a, c, b, 0);
  }

  /** A booking for day 7 is confirmed, its key expires after a day and is used again, and a repeat that
      read its clock at the beginning comes last: it hears NO_AVAILABLE_RESOURCE or VEHICLE_ALREADY_BOOKED. */
  lemma SomeRepeatMissesItsRecord()
    returns (shop: Shop, a: Request, c: Request, b: Request, db1: Db, db2: Db, e: DomainError)
    ensures shop == SmallShop() && a == OnDay(7, 0, 0) && c == OnDay(7, 0, RETENTION) && b == OnDay(7, 0, 1)
    ensures BookUnder(shop, Quiet(Db([], map[]), 0), a).Answer?
    ensures BookUnder(shop, Quiet(Db([], map[]), 0), a).outcome.Booked?
    ensures db1 == AfterBook(shop, Db([], map[]), a, 0) && db2 == AfterBook(shop, db1, c, 0) && Durable(e)
    ensures BookUnder(shop, Quiet(db2, 0), b) == Answer(Rejected(e), None, None)
  {
    shop, a, c, b := SmallShop(), OnDay(7, 0, 0), OnDay(7, 0, RETENTION), OnDay(7, 0, 1);
    SmallShopIsGood();
    FirstSelected(a);
    ThursdayReady(7, 0, RETENTION);
    ThursdayReady(7, 0, 1);
    db1, db2, e := RepeatOnEmptyTable(shop, Db([], map[]), a, c, b);
  }

  // ----- A row out of hours -----

  /** An appointment across midnight, which only a writer other than Book can have made. */
  const ACROSS: Row := Row(0, 0, 0, 0, 0, 0, General, 0, 0, Interval(7 * DAY - 10 * MINUTE, 7 * DAY + 20 * MINUTE),
                           Confirmed)

  lemma AcrossIsForeign()
    ensures DbOk(SmallShop(), Db([ACROSS], map[]))
    ensures var s := RunTo(SmallShop(), InitialState(Db([], map[]), []), [Foreign(ACROSS)]);
            s.Some? && s.value.db == Db([ACROSS], map[])
  {
    var shop, init := SmallShop(), InitialState(Db([], map[]), []);
    assert shop.technicians[0] in shop.technicians && shop.bays[0] in shop.bays;
    assert RowOk(shop, ACROSS);
    assert Enabled(shop, init, Foreign(ACROSS));
    OneMore(shop, init, [], Foreign(ACROSS));
    assert [] + [Foreign(ACROSS)] == [Foreign(ACROSS)];
  }

  /** A listed time whose selected bay is taken by a row that the day does not show. */
  lemma ListedAndMissed(shop: Shop, db: Db, req: Request, date: int, g: int, o: Row)
    requires ShopOk(shop) && ClocksFit(shop) && Check(shop, req).Ready? && req.key.None?
    requires var plan := Check(shop, req).plan;
             Select(DayScheduleOf(shop, db.rows, plan.query), plan.st, plan.iv) == Assigned(0, 0)
    requires o in db.rows && o.status == Confirmed && o.bay == 0 && RangesOverlap(Check(shop, req).plan.iv, o.iv)
    requires req.dealership in shop.dealerships && OnDateGrid(shop, req.dealership, date, g, req.start)
    ensures req.service in shop.services
    ensures req.start in SlotsOn(shop, db.rows, req.dealership, req.service, req.vehicle, date, req.now, g)
    ensures BookUnder(shop, Quiet(db, 1), req) == Answer(CONTENDED, None, None)
  {
    CheckedRequest(shop, req);
    ListedIffSelected(shop, db.rows, req, date, g, 1);
    MissedRowContends(shop, db, req, 1, o, Assigned(0, 0));
  }

  lemma EarlyRequest(req: Request)
    requires req == Request(0, 0, 0, 7 * DAY, None, 0)
    ensures OnDateGrid(SmallShop(), 0, 7, 30 * MINUTE, req.start)
    ensures Check(SmallShop(), req) ==
            Ready(Plan(ServiceType(30 * MINUTE, 0, General), Interval(7 * DAY, 7 * DAY + 30 * MINUTE), 7,
                       ScheduleQuery(0, Interval(7 * DAY, 8 * DAY), Some(0)), 0))
  {
    var dl := SmallShop().dealerships[0];
    assert Weekday(7) == 4 && DateOf(dl, 7 * DAY) == 7 && WindowOf(dl, 7) == Some(Window(7 * DAY, 8 * DAY));
    assert ValidateBookingTime(7 * DAY, 30 * MINUTE, 0, dl) == Slot(Interval(7 * DAY, 7 * DAY + 30 * MINUTE));
  }

  lemma EarlySelected(req: Request)
    requires req == Request(0, 0, 0, 7 * DAY, None, 0)
    ensures Check(SmallShop(), req).Ready? && RangesOverlap(Check(SmallShop(), req).plan.iv, ACROSS.iv)
    ensures var plan := Check(SmallShop(), req).plan;
            Select(DayScheduleOf(SmallShop(), [ACROSS], plan.query), plan.st, plan.iv) == Assigned(0, 0)
  {
    EarlyRequest(req);
    var plan := Check(SmallShop(), req).plan;
    OnlyPairSelected(SmallShop(), [ACROSS], plan.query, plan.st, plan.iv);
  }

  /** Availability and booking need a table in hours to agree: on one with a foreign row across midnight, the
      first minute of the day is listed, and a lone booking of it is told CONTENTION. */
  lemma ListedButContended() returns (shop: Shop, db: Db, req: Request)
    ensures shop == SmallShop() && db == Db([ACROSS], map[]) && req == Request(0, 0, 0, 7 * DAY, None, 0)
    ensures ShopOk(shop) && ClocksFit(shop) && DbOk(shop, db) && 0 in shop.dealerships && 0 in shop.services
    ensures var s := RunTo(shop, InitialState(Db([], map[]), []), [Foreign(ACROSS)]); s.Some? && s.value.db == db
    ensures req.start in SlotsOn(shop, db.rows, 0, 0, 0, 7, 0, 30 * MINUTE)
    ensures BookUnder(shop, Quiet(db, 1), req) == Answer(CONTENDED, None, None)
  {
    shop, db, req := SmallShop(), Db([ACROSS], map[]), Request(0, 0, 0, 7 * DAY, None, 0);
    SmallShopIsGood();
    AcrossIsForeign();
    EarlyRequest(req);
    EarlySelected(req);
    assert db.rows[0] == ACROSS;
    ListedAndMissed(shop, db, req, 7, 30 * MINUTE, ACROSS);
  }

  lemma CrossedLocks()
    ensures LockCycle(SmallShop(), map[], [OnDay(7, 0, 0), OnDay(14, 1, 0)], [0, 1])
  {
    ThursdayReady(7, 0, 0);
    ThursdayReady(14, 1, 0);
  }

  /** Two bookings of that dealership, for days 7 and 14, can end up waiting for each other. */
  lemma SomeLocksDeadlock() returns (evs: seq<Event>)
    ensures BookingsOnly(evs) && RunTo(SmallShop(), InitialState(Db([], map[]), [OnDay(7, 0, 0), OnDay(14, 1, 0)]),
                                       evs).Some?
    ensures WaitCycle(SmallShop(), RunTo(SmallShop(), InitialState(Db([], map[]), [OnDay(7, 0, 0), OnDay(14, 1, 0)]),
                                         evs).value, [0, 1, 0])
  {
    var reqs, cycle: seq<nat> := [OnDay(7, 0, 0), OnDay(14, 1, 0)], [0, 1];
    CrossedLocks();
    evs := LockCycleDeadlocks(SmallShop(), Db([], map[]), reqs, cycle);
    assert cycle + [cycle[0]] == [0, 1, 0];
  }

  // ----- A rush -----

  /** Days 7 to 13 of that dealership have one opening, day 7; two vehicles want its first half hour. */
  function HalfHour(): Interval {
    Interval(7 * DAY, 7 * DAY + 30 * MINUTE)
  }

  function RushShop(): Shop {
    PairShop(Dealership(FixedOffset(0), map[4 := OpeningHours(0, 1440)]), HalfHour(), HalfHour())
  }

  lemma RushReady(vehicle: Id)
    requires vehicle in {0, 1}
    ensures Check(RushShop(), Request(0, vehicle, 0, 7 * DAY, None, 0)) ==
            Ready(Plan(ServiceType(30 * MINUTE, 0, General), HalfHour(), 7,
                       ScheduleQuery(0, Interval(7 * DAY, 8 * DAY), Some(vehicle)), 0))
  {
    var dl := RushShop().dealerships[0];
    assert Weekday(7) == 4 && DateOf(dl, 7 * DAY) == 7 && WindowOf(dl, 7) == Some(Window(7 * DAY, 8 * DAY));
    assert ValidateBookingTime(7 * DAY, 30 * MINUTE, 0, dl) == Slot(HalfHour());
  }

  lemma RushOfTwo(shop: Shop, lead: Request, other: Request)
    requires Check(shop, lead).Ready? && Check(shop, other).Ready? && lead.key.None? && other.key.None?
    requires Joins(lead, other) && lead.vehicle != other.vehicle
    ensures Rush(shop, lead, InitialState(Db([], map[]), [lead, other]).txns)
    ensures Waiting(shop, lead, InitialState(Db([], map[]), [lead, other]))
  {
  }

  lemma OnlyPairIsOpen(shop: Shop, st: ServiceType, iv: Interval)
    requires OnePair(shop) && st.skill == 0 && st.bayType == General
    ensures 0 in OpenTechnicians(shop, [], 0, st, iv) && 0 in OpenBays(shop, [], 0, st, iv)
  {
    var t, b := shop.technicians[0], shop.bays[0];
    assert t in shop.technicians && OpenTechnician(shop, [], 0, st, iv, t);
    assert b in shop.bays && OpenBay(shop, [], 0, st, iv, b);
  }

  /** The conditions of the theorem on last slots can be met: two requests for one technician and one bay. */
  lemma SomeRush() returns (shop: Shop, lead: Request, other: Request)
    ensures ShopOk(shop) && ClocksFit(shop) && Joins(lead, other) && OnePair(shop) && lead.dealership == 0
    ensures Rush(shop, lead, InitialState(Db([], map[]), [lead, other]).txns)
    ensures Waiting(shop, lead, InitialState(Db([], map[]), [lead, other]))
    ensures var plan := Check(shop, lead).plan;
            0 in OpenTechnicians(shop, [], 0, plan.st, plan.iv) && 0 in OpenBays(shop, [], 0, plan.st, plan.iv)
  {
    shop, lead, other := RushShop(), Request(0, 0, 0, 7 * DAY, None, 0), Request(0, 1, 0, 7 * DAY, None, 0);
    FixedOffsetFits(0, map[4 := OpeningHours(0, 1440)]);
    RushReady(0);
    RushReady(1);
    assert shop.dealerships.Keys == {0};
    RushOfTwo(shop, lead, other);
    OnlyPairIsOpen(shop, Check(shop, lead).plan.st, Check(shop, lead).plan.iv);
  }

  /** The conditions of the balance theorem can be met: the only holder of the skill is free when her turn comes. */
  lemma SomeSkillDay(ids: nat -> Id) returns (shop: Shop, db: Db, reqs: seq<Request>, q: ScheduleQuery)
    ensures ShopOk(shop) && |reqs| == 1 && Check(shop, reqs[0]).Ready?
            && (forall k :: 0 <= k < |db.rows| ==> !InDay(db.rows[k], q))
    ensures OneSkillDay(shop, db, reqs, ids, q, 0) && exists t :: Holder(shop, q.dealership, 0, t)
  {
    shop, db, reqs := SmallShop(), Db([], map[]), [OnDay(7, 0, 0)];
    SmallShopIsGood();
    ThursdayReady(7, 0, 0);
    q := Check(shop, reqs[0]).plan.query;
    assert reqs[..0] == [];
    assert shop.technicians[0] in shop.technicians;
    assert Holder(shop, q.dealership, 0, shop.technicians[0]);
  }
}
