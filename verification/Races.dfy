/** Runs in which bookings are the only inserters, with cancellations: under the day lock no race is lost
    (scheduler.go Book and assignAndInsert). */
module Races {
  import opened Policy
  import opened Assignment
  import opened Hours
  import opened Schema
  import opened Booking
  import opened Protocol
  import opened Safety
  import opened Tables
  import opened Runs

  // ----- The advisory selection and the constraints agree -----

  ghost predicate RowsInHours(shop: Shop, rows: seq<Row>) {
    forall k :: 0 <= k < |rows| ==> InHours(shop, rows[k])
  }

  /** Resources belong to one dealership, so a clash is within one dealership. */
  lemma ClashIsLocal(shop: Shop, a: Row, b: Row)
    requires ShopOk(shop) && RowOk(shop, a) && RowOk(shop, b) && Clash(a, b)
    ensures a.dealership == b.dealership
  {
    if a.bay == b.bay {
      var x :| x in shop.bays && x.id == a.bay && x.dealership == a.dealership;
      var y :| y in shop.bays && y.id == b.bay && y.dealership == b.dealership;
      assert x == y;
    } else if a.technician == b.technician {
      var x :| x in shop.technicians && x.id == a.technician && x.dealership == a.dealership;
      var y :| y in shop.technicians && y.id == b.technician && y.dealership == b.dealership;
      assert x == y;
    }
  }

  /** A row that clashes with one a service was booked for starts within that one's day. */
  lemma ClashIsInDay(shop: Shop, a: Row, b: Row)
    requires ShopOk(shop) && CalendarsFit(shop) && RowOk(shop, a) && RowOk(shop, b)
    requires InHours(shop, a) && InHours(shop, b) && WholeLength(b.iv) && Clash(a, b)
    ensures a.dealership == b.dealership && Bounds(shop.dealerships[b.dealership], DayOf(shop, b)).Contains(a.iv.start)
    ensures WholeLength(a.iv) ==> DayOf(shop, a) == DayOf(shop, b)
  {
    ClashIsLocal(shop, a, b);
    var dl := shop.dealerships[b.dealership];
    assert OpenFor(dl, a.iv) && OpenFor(dl, b.iv);
  }

  lemma NewRowInHours(shop: Shop, r: Row, req: Request)
    requires ShopOk(shop) && Check(shop, req).Ready?
    requires r.dealership == req.dealership && r.iv == Check(shop, req).plan.iv
    ensures InHours(shop, r) && DayOf(shop, r) == Check(shop, req).plan.day && WholeLength(r.iv)
  {
    CheckedRequest(shop, req);
  }

  /** The pair selected on a day conflicts with no row of that day. */
  lemma DayRowsClear(shop: Shop, rows: seq<Row>, q: ScheduleQuery, st: ServiceType, r: Row, o: Row)
    requires o in rows && InDay(o, q) && q.vehicle == Some(r.vehicle)
    requires Select(DayScheduleOf(shop, rows, q), st, r.iv) == Assigned(r.technician, r.bay)
    ensures !Clash(r, o)
  {
    var s := DayScheduleOf(shop, rows, q);
    AssignedIsFree(s, st, r.iv);
    var t :| FreeTechnician(s, st, r.iv, t) && t.id == r.technician;
    TechnicianDayMember(shop, rows, q, t);
    var b :| FreeBay(s, st, r.iv, b) && b.id == r.bay;
    BayDayMember(shop, rows, q, b);
    BookedForMembers(rows, q, TheTechnician(r.technician));
    BookedForMembers(rows, q, TheBay(r.bay));
    BookedForMembers(rows, q, TheVehicle(r.vehicle));
  }

  /** The pair selected on one dealership-day conflicts with no row of the whole table. */
  lemma SelectedRowClear(shop: Shop, rows: seq<Row>, req: Request, id: Id, o: Row)
    requires ShopOk(shop) && CalendarsFit(shop) && Check(shop, req).Ready?
    requires o in rows && RowOk(shop, o) && InHours(shop, o)
    requires var plan := Check(shop, req).plan;
             Select(DayScheduleOf(shop, rows, plan.query), plan.st, plan.iv).Assigned?
    ensures var plan := Check(shop, req).plan;
            var v := Select(DayScheduleOf(shop, rows, plan.query), plan.st, plan.iv);
            !Clash(NewRow(req, plan, v.technician, v.bay, id), o)
  {
    var plan := Check(shop, req).plan;
    var v := Select(DayScheduleOf(shop, rows, plan.query), plan.st, plan.iv);
    var r := NewRow(req, plan, v.technician, v.bay, id);
    SelectedRowOk(shop, rows, req, id);
    CheckedRequest(shop, req);
    if Clash(r, o) {
      NewRowInHours(shop, r, req);
      ClashIsInDay(shop, o, r);
      DayRowsClear(shop, rows, plan.query, plan.st, r, o);
    }
  }

  // ----- What holds while nobody loses -----

  /** The pair a transaction has selected is still free of every committed row, and nothing has been lost. */
  ghost predicate UnbeatenOk(shop: Shop, rows: seq<Row>, t: Txn) {
    && !t.phase.Rechecking?
    && (t.phase.Reading? ==> t.phase.attempt == 0)
    && (t.phase.Inserting? && Check(shop, t.req).Ready? ==>
          t.phase.attempt == 0 && forall k :: 0 <= k < |rows| ==> !Clash(RowFor(shop, t, 0), rows[k]))
    && (t.phase.Saving? || t.phase.Committing? ==> t.phase.outcome != CONTENDED)
  }

  ghost predicate Uncontended(log: seq<Entry>) {
    forall k :: 0 <= k < |log| ==> log[k].outcome != CONTENDED
  }

  ghost predicate UnbeatenInv(shop: Shop, s: State) {
    && Inv(shop, s) && RowsInHours(shop, s.db.rows) && Uncontended(s.log)
    && forall i :: 0 <= i < |s.txns| ==> UnbeatenOk(shop, s.db.rows, s.txns[i])
  }

  /** Two transactions past the day lock work on different dealership-days. */
  lemma DayLocksSeparate(shop: Shop, s: State, i: nat, j: nat)
    requires ShapesOk(shop, s) && LocksOk(shop, s) && i < |s.txns| && j < |s.txns| && i != j
    requires PastDay(s.txns[i].phase) && PastDay(s.txns[j].phase)
    ensures Check(shop, s.txns[i].req).Ready? && Check(shop, s.txns[j].req).Ready?
    ensures s.txns[i].req.dealership != s.txns[j].req.dealership
            || Check(shop, s.txns[i].req).plan.day != Check(shop, s.txns[j].req).plan.day
  {
    var t, u := s.txns[i], s.txns[j];
    assert ShapeOk(shop, t) && ShapeOk(shop, u);
    assert Owns(shop, t, DayLockOf(shop, t.req)) && Owns(shop, u, DayLockOf(shop, u.req));
    assert DayLockOf(shop, t.req) != DayLockOf(shop, u.req);
  }

  /** An uncommitted row belongs to a transaction past the day lock and to that transaction's day. */
  lemma PendingRowDay(shop: Shop, t: Txn)
    requires ShopOk(shop) && ShapeOk(shop, t) && t.row.Some?
    ensures PastDay(t.phase) && Check(shop, t.req).Ready? && RowOk(shop, t.row.value)
    ensures t.row.value.dealership == t.req.dealership && InHours(shop, t.row.value)
            && DayOf(shop, t.row.value) == Check(shop, t.req).plan.day && WholeLength(t.row.value.iv)
  {
    NewRowInHours(shop, t.row.value, t.req);
  }

  /** While a transaction holds its day lock, another's uncommitted row does not stand in its way. */
  lemma PendingApart(shop: Shop, s: State, i: nat, j: nat, r: Row)
    requires ShopOk(shop) && CalendarsFit(shop) && ShapesOk(shop, s) && LocksOk(shop, s)
    requires i < |s.txns| && s.txns[i].phase.Inserting? && Check(shop, s.txns[i].req).Ready?
    requires j < |s.txns| && j != i && s.txns[j].row.Some?
    requires RowOk(shop, r) && InHours(shop, r) && WholeLength(r.iv)
    requires r.dealership == s.txns[i].req.dealership && DayOf(shop, r) == Check(shop, s.txns[i].req).plan.day
    ensures !Clash(r, s.txns[j].row.value) && Violation([s.txns[j].row.value], r).None?
  {
    var o := s.txns[j].row.value;
    assert ShapeOk(shop, s.txns[j]);
    PendingRowDay(shop, s.txns[j]);
    DayLocksSeparate(shop, s, i, j);
    if Clash(r, o) {
      ClashIsInDay(shop, o, r);
    }
    ExclusionForbidsClashes([o], r);
  }

  lemma InserterRow(shop: Shop, t: Txn, id: Id)
    requires ShopOk(shop) && ShapeOk(shop, t) && t.phase.Inserting?
    ensures Check(shop, t.req).Ready?
    ensures var r := RowFor(shop, t, id);
            && RowOk(shop, r) && InHours(shop, r) && WholeLength(r.iv)
            && r.dealership == t.req.dealership && DayOf(shop, r) == Check(shop, t.req).plan.day
  {
    NewRowInHours(shop, RowFor(shop, t, id), t.req);
  }

  lemma ClearOfPending(shop: Shop, s: State, i: nat, id: Id)
    requires ShopOk(shop) && CalendarsFit(shop) && ShapesOk(shop, s) && LocksOk(shop, s)
    requires i < |s.txns| && s.txns[i].phase.Inserting? && Check(shop, s.txns[i].req).Ready?
    ensures !MeetsPending(s, i, RowFor(shop, s.txns[i], id))
  {
    assert ShapeOk(shop, s.txns[i]);
    InserterRow(shop, s.txns[i], id);
    forall j | 0 <= j < |s.txns| && j != i && s.txns[j].row.Some?
      ensures Violation([s.txns[j].row.value], RowFor(shop, s.txns[i], id)).None?
    {
      PendingApart(shop, s, i, j, RowFor(shop, s.txns[i], id));
    }
  }

  lemma ClearOfCommitted(shop: Shop, rows: seq<Row>, t: Txn, id: Id)
    requires RowsOk(shop, rows) && UnbeatenOk(shop, rows, t) && ShapeOk(shop, t)
    requires t.phase.Inserting? && Check(shop, t.req).Ready?
    ensures Violation(rows, RowFor(shop, t, id)).None?
  {
    var r := RowFor(shop, t, id);
    assert RowOk(shop, r);
    forall o | o in rows ensures o.iv.start < o.iv.end && !Clash(r, o) {
      var k :| 0 <= k < |rows| && rows[k] == o;
      assert RowOk(shop, rows[k]) && !Clash(RowFor(shop, t, 0), rows[k]);
    }
    ExclusionForbidsClashes(rows, r);
  }

  lemma ClearInsert(shop: Shop, s: State, i: nat, id: Id)
    requires i < |s.txns| && s.txns[i].phase.Inserting? && Check(shop, s.txns[i].req).Ready? && ShapeOk(shop, s.txns[i])
    requires forall n :: Violation(s.db.rows, RowFor(shop, s.txns[i], n)).None?
                         && !MeetsPending(s, i, RowFor(shop, s.txns[i], n))
    ensures !CanAct(shop, s, i, Lose)
    ensures FreshId(s, id) ==> CanAct(shop, s, i, Insert(id))
  {
    assert RowOk(shop, RowFor(shop, s.txns[i], id));
  }

  /** With bookings as the only inserters, the first insert of a transaction is never refused and never
      waits, whatever has been cancelled since its schedule was read. */
  lemma InsertGoesThrough(shop: Shop, s: State, i: nat, id: Id)
    requires ShopOk(shop) && CalendarsFit(shop) && UnbeatenInv(shop, s)
    requires i < |s.txns| && s.txns[i].phase.Inserting?
    ensures s.txns[i].phase.attempt == 0 && !CanAct(shop, s, i, Lose)
    ensures FreshId(s, id) ==> CanAct(shop, s, i, Insert(id))
  {
    assert ShapeOk(shop, s.txns[i]) && UnbeatenOk(shop, s.db.rows, s.txns[i]);
    forall n
      ensures Violation(s.db.rows, RowFor(shop, s.txns[i], n)).None?
      ensures !MeetsPending(s, i, RowFor(shop, s.txns[i], n))
    {
      ClearOfCommitted(shop, s.db.rows, s.txns[i], n);
      ClearOfPending(shop, s, i, n);
    }
    ClearInsert(shop, s, i, id);
  }

  // ----- Preservation -----

  lemma ReadKeepsUnbeaten(shop: Shop, rows: seq<Row>, t: Txn)
    requires ShopOk(shop) && CalendarsFit(shop) && RowsOk(shop, rows) && RowsInHours(shop, rows)
    requires UnbeatenOk(shop, rows, t) && t.phase.Reading? && Check(shop, t.req).Ready?
    ensures UnbeatenOk(shop, rows, AfterRead(shop, Check(shop, t.req).plan, rows, t))
  {
    var plan := Check(shop, t.req).plan;
    match Select(DayScheduleOf(shop, rows, plan.query), plan.st, plan.iv)
    case Refused(e) =>
    case Assigned(technician, bay) =>
      forall k | 0 <= k < |rows| ensures !Clash(NewRow(t.req, plan, technician, bay, 0), rows[k]) {
        assert RowOk(shop, rows[k]) && InHours(shop, rows[k]);
        SelectedRowClear(shop, rows, t.req, 0, rows[k]);
      }
  }

  lemma LocalKeepsUnbeaten(shop: Shop, rows: seq<Row>, t: Txn, action: Action)
    requires ShopOk(shop) && CalendarsFit(shop) && RowsOk(shop, rows) && RowsInHours(shop, rows)
    requires UnbeatenOk(shop, rows, t) && Fits(shop, t, action) && !action.Lose?
    ensures UnbeatenOk(shop, rows, LocalNext(shop, rows, t, action))
  {
    if action.Read? {
      ReadKeepsUnbeaten(shop, rows, t);
    }
  }

  /** A stored outcome is never contention. */
  lemma FindKeepsUnbeaten(shop: Shop, db: Db, t: Txn)
    requires RecordsOk(db) && t.phase.Finding?
    ensures UnbeatenOk(shop, db.rows, AfterFind(db, t))
  {
    var live := LiveRecord(db.records, t.req);
    if live.Some? {
      assert RecordOk(db.rows, t.req.dealership, live.value);
    }
  }

  lemma StatementKeepsUnbeaten(shop: Shop, s: State, i: nat, action: Action)
    requires ShopOk(shop) && CalendarsFit(shop) && UnbeatenInv(shop, s)
    requires i < |s.txns| && CanAct(shop, s, i, action) && !action.Commit?
    ensures UnbeatenOk(shop, s.db.rows, Act(shop, s, i, action).txns[i])
  {
    assert UnbeatenOk(shop, s.db.rows, s.txns[i]);
    if action.Lose? {
      InsertGoesThrough(shop, s, i, 0);
    } else if Fits(shop, s.txns[i], action) {
      LocalKeepsUnbeaten(shop, s.db.rows, s.txns[i], action);
    } else if action.Find? {
      FindKeepsUnbeaten(shop, s.db, s.txns[i]);
    }
  }

  lemma CommitKeepsUnbeaten(shop: Shop, s: State, i: nat, j: nat)
    requires ShopOk(shop) && CalendarsFit(shop) && UnbeatenInv(shop, s)
    requires i < |s.txns| && j < |s.txns| && s.txns[i].phase.Committing?
    ensures UnbeatenOk(shop, CommitTxn(s, i).db.rows, CommitTxn(s, i).txns[j])
  {
    var u := s.txns[j];
    assert UnbeatenOk(shop, s.db.rows, u) && ShapeOk(shop, u);
    if j != i && u.phase.Inserting? && s.txns[i].row.Some? {
      InserterRow(shop, u, 0);
      PendingApart(shop, s, j, i, RowFor(shop, u, 0));
    }
  }

  lemma CancelKeepsUnbeaten(shop: Shop, rows: seq<Row>, k: nat, t: Txn)
    requires UnbeatenOk(shop, rows, t) && k < |rows|
    ensures UnbeatenOk(shop, rows[k := rows[k].(status := Cancelled)], t)
  {
  }

  ghost predicate NoForeigners(evs: seq<Event>) {
    forall k :: 0 <= k < |evs| ==> !evs[k].Foreign?
  }

  lemma ApplyKeepsHours(shop: Shop, s: State, ev: Event)
    requires ShopOk(shop) && ShapesOk(shop, s) && RowsInHours(shop, s.db.rows) && !ev.Foreign? && Enabled(shop, s, ev)
    ensures RowsInHours(shop, Apply(shop, s, ev).db.rows)
  {
    if ev.Step? {
      if ev.action.Commit? {
        assert ShapeOk(shop, s.txns[ev.i]);
        if s.txns[ev.i].row.Some? {
          PendingRowDay(shop, s.txns[ev.i]);
        }
      } else {
        OnlyOwnTxnMoves(shop, s, ev.i, ev.action);
      }
    }
  }

  lemma StepKeepsUnbeaten(shop: Shop, s: State, i: nat, action: Action)
    requires ShopOk(shop) && CalendarsFit(shop) && UnbeatenInv(shop, s) && i < |s.txns| && CanAct(shop, s, i, action)
    ensures var s' := Act(shop, s, i, action);
            Uncontended(s'.log) && forall j :: 0 <= j < |s'.txns| ==> UnbeatenOk(shop, s'.db.rows, s'.txns[j])
  {
    var s' := Act(shop, s, i, action);
    assert UnbeatenOk(shop, s.db.rows, s.txns[i]);
    if action.Commit? {
      forall j | 0 <= j < |s.txns| ensures UnbeatenOk(shop, s'.db.rows, s'.txns[j]) {
        CommitKeepsUnbeaten(shop, s, i, j);
      }
    } else {
      OnlyOwnTxnMoves(shop, s, i, action);
      StatementKeepsUnbeaten(shop, s, i, action);
    }
  }

  lemma ApplyKeepsUnbeaten(shop: Shop, s: State, ev: Event)
    requires ShopOk(shop) && CalendarsFit(shop) && UnbeatenInv(shop, s) && !ev.Foreign? && Enabled(shop, s, ev)
    ensures UnbeatenInv(shop, Apply(shop, s, ev))
  {
    ApplyKeepsInv(shop, s, ev);
    ApplyKeepsHours(shop, s, ev);
    match ev
    case Step(i, action) => StepKeepsUnbeaten(shop, s, i, action);
    case Cancel(k) =>
      forall i | 0 <= i < |s.txns| ensures UnbeatenOk(shop, Apply(shop, s, ev).db.rows, s.txns[i]) {
        CancelKeepsUnbeaten(shop, s.db.rows, k, s.txns[i]);
      }
  }

  lemma {:induction false} RunKeepsUnbeaten(shop: Shop, db: Db, reqs: seq<Request>, evs: seq<Event>)
    requires ShopOk(shop) && CalendarsFit(shop) && DbOk(shop, db) && RowsInHours(shop, db.rows)
    requires NoForeigners(evs) && RunTo(shop, InitialState(db, reqs), evs).Some?
    ensures UnbeatenInv(shop, RunTo(shop, InitialState(db, reqs), evs).value)
  {
    if |evs| == 0 {
      RunKeepsInv(shop, db, reqs, evs);
    } else {
      var n := |evs| - 1;
      RunKeepsUnbeaten(shop, db, reqs, evs[..n]);
      ApplyKeepsUnbeaten(shop, RunTo(shop, InitialState(db, reqs), evs[..n]).value, evs[n]);
    }
  }

  // ----- Theorems -----

  lemma PhaseDecides(shop: Shop, s: State, i: nat)
    requires i < |s.txns|
    ensures CanAct(shop, s, i, Lose) ==> s.txns[i].phase.Inserting?
    ensures CanAct(shop, s, i, Recheck) ==> s.txns[i].phase.Rechecking?
  {
  }

  lemma NeverLoses(shop: Shop, s: State, i: nat)
    requires i < |s.txns| && ShopOk(shop) && CalendarsFit(shop) && UnbeatenInv(shop, s)
    ensures !CanAct(shop, s, i, Lose) && !CanAct(shop, s, i, Recheck)
  {
    PhaseDecides(shop, s, i);
    if s.txns[i].phase.Inserting? {
      InsertGoesThrough(shop, s, i, 0);
    } else {
      assert UnbeatenOk(shop, s.db.rows, s.txns[i]);
    }
  }

  /** Under the day lock nobody loses a race, cancellations included: no insert is refused, none waits,
      nobody is told CONTENTION, and INV-6 holds. */
  lemma NoLostRaces(shop: Shop, db: Db, reqs: seq<Request>, evs: seq<Event>)
    requires ShopOk(shop) && CalendarsFit(shop) && DbOk(shop, db) && RowsInHours(shop, db.rows)
    requires NoForeigners(evs) && RunTo(shop, InitialState(db, reqs), evs).Some?
    ensures var s := RunTo(shop, InitialState(db, reqs), evs).value;
            && (forall i :: 0 <= i < |s.txns| ==> !CanAct(shop, s, i, Lose) && !CanAct(shop, s, i, Recheck))
            && (forall i, id :: 0 <= i < |s.txns| && s.txns[i].phase.Inserting? && FreshId(s, id) ==>
                  CanAct(shop, s, i, Insert(id)))
            && (forall k :: 0 <= k < |s.log| ==> s.log[k].outcome != CONTENDED)
            && (forall k :: 0 <= k < |s.db.rows| ==> InHours(shop, s.db.rows[k]))
  {
    RunKeepsUnbeaten(shop, db, reqs, evs);
    var s := RunTo(shop, InitialState(db, reqs), evs).value;
    forall i | 0 <= i < |s.txns| ensures !CanAct(shop, s, i, Lose) && !CanAct(shop, s, i, Recheck) {
      NeverLoses(shop, s, i);
    }
    forall i, id | 0 <= i < |s.txns| && s.txns[i].phase.Inserting? && FreshId(s, id)
      ensures CanAct(shop, s, i, Insert(id))
    {
      InsertGoesThrough(shop, s, i, id);
    }
  }

  /** INV-6 needs no condition on clocks or locks: as long as bookings are the only inserters, every
      appointment lies inside the opening hours of its own local date, cancellations and aborts included. */
  lemma {:induction false} HoursAlwaysKept(shop: Shop, db: Db, reqs: seq<Request>, evs: seq<Event>)
    requires ShopOk(shop) && DbOk(shop, db) && RowsInHours(shop, db.rows)
    requires NoForeigners(evs) && RunTo(shop, InitialState(db, reqs), evs).Some?
    ensures RowsInHours(shop, RunTo(shop, InitialState(db, reqs), evs).value.db.rows)
  {
    if |evs| == 0 {
    } else {
      var n := |evs| - 1;
      RunKeepsInv(shop, db, reqs, evs[..n]);
      HoursAlwaysKept(shop, db, reqs, evs[..n]);
      ApplyKeepsHours(shop, RunTo(shop, InitialState(db, reqs), evs[..n]).value, evs[n]);
    }
  }
}
