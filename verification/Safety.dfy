/** What every run keeps, whoever else writes: locks, row invariants, record invariants. */
module Safety {
  import opened Intervals
  import opened Policy
  import opened Assignment
  import opened Hours
  import opened Schema
  import opened Booking
  import opened Protocol

  // ----- Facts about a request that passed the checks -----

  lemma CheckedRequest(shop: Shop, req: Request)
    requires ShopOk(shop) && Check(shop, req).Ready?
    ensures var plan := Check(shop, req).plan;
            && req.dealership in shop.dealerships && req.service in shop.services && req.vehicle in shop.vehicles
            && plan.st == shop.services[req.service] && plan.iv == NewInterval(req.start, plan.st.duration)
            && plan.day == DateOf(shop.dealerships[req.dealership], req.start)
            && plan.query == ScheduleQuery(req.dealership, Bounds(shop.dealerships[req.dealership], plan.day),
                                           Some(req.vehicle))
            && InsideHours(shop.dealerships[req.dealership], plan.day, plan.iv)
            && plan.iv.start < plan.iv.end
  {
    assert shop.services[req.service].duration > 0;
  }

  /** Whatever pair the selection picks, the row passes the CHECK and every foreign key. */
  lemma SelectedRowOk(shop: Shop, rows: seq<Row>, req: Request, id: Id)
    requires ShopOk(shop) && Check(shop, req).Ready?
    requires var plan := Check(shop, req).plan;
             Select(DayScheduleOf(shop, rows, plan.query), plan.st, plan.iv).Assigned?
    ensures var plan := Check(shop, req).plan;
            var v := Select(DayScheduleOf(shop, rows, plan.query), plan.st, plan.iv);
            RowOk(shop, NewRow(req, plan, v.technician, v.bay, id))
  {
    CheckedRequest(shop, req);
    var plan := Check(shop, req).plan;
    var s := DayScheduleOf(shop, rows, plan.query);
    AssignedIsFree(s, plan.st, plan.iv);
    var t :| FreeTechnician(s, plan.st, plan.iv, t) && t.id == Select(s, plan.st, plan.iv).technician;
    TechnicianDayMember(shop, rows, plan.query, t);
    var b :| FreeBay(s, plan.st, plan.iv, b) && b.id == Select(s, plan.st, plan.iv).bay;
    BayDayMember(shop, rows, plan.query, b);
  }

  // ----- Each transaction on its own -----

  /** The row was written for this request. */
  ghost predicate RowOfRequest(fp: Fingerprint, r: Row) {
    r.dealership == fp.dealership && r.vehicle == fp.vehicle && r.service == fp.service && r.iv.start == fp.start
  }

  predicate Durable(e: DomainError) {
    e.code == NoAvailableResource || e.code == VehicleAlreadyBooked
  }

  /** The transaction's uncommitted row is what its outcome promises. */
  ghost predicate Carries(shop: Shop, t: Txn, o: Outcome) {
    match o
    case Booked(row) =>
      && t.row == Some(row) && RowOk(shop, row) && row.status == Confirmed && RowOfRequest(FingerprintOf(t.req), row)
      && Check(shop, t.req).Ready? && row.iv == Check(shop, t.req).plan.iv
    case Rejected(e) => t.row == None && Durable(e)
  }

  ghost predicate ShapeOk(shop: Shop, t: Txn) {
    && (Active(t.phase) || t.phase.Done? ==> Check(shop, t.req).Ready?)
    && (t.phase.TurnedAway? ==> Check(shop, t.req) == Invalid(t.phase.error))
    && (t.phase.WantKey? || t.phase.Finding? ==> t.req.key.Some?)
    && (!t.phase.Saving? && !t.phase.Committing? ==> t.row == None && t.record == None)
    && (t.phase.Reading? ==> t.phase.attempt < t.phase.budget)
    && (t.phase.Inserting? ==> t.phase.attempt < t.phase.budget && forall id :: RowOk(shop, RowFor(shop, t, id)))
    && (t.phase.Saving? ==> t.req.key.Some? && t.record == None && Carries(shop, t, t.phase.outcome))
    && (t.phase.Committing? ==>
          if t.phase.replayed then t.req.key.Some? && t.row == None && t.record == None
          else if t.phase.outcome == CONTENDED then t.row == None && t.record == None
          else Carries(shop, t, t.phase.outcome)
               && t.record == if t.req.key.Some? then Some(RecordOf(t.req, t.phase.outcome)) else None)
  }

  lemma ConcludedShape(shop: Shop, t: Txn, o: Outcome)
    requires Check(shop, t.req).Ready? && t.record == None && Carries(shop, t, o)
    ensures ShapeOk(shop, Conclude(t, o))
  {
  }

  lemma VerdictShape(shop: Shop, t: Txn, v: Verdict, budget: nat)
    requires ShapeOk(shop, t) && t.phase.Reading? && t.phase.attempt < budget
    requires match v
             case Refused(e) => Durable(e)
             case Assigned(technician, bay) =>
               forall id :: RowOk(shop, NewRow(t.req, Check(shop, t.req).plan, technician, bay, id))
    ensures ShapeOk(shop, AfterVerdict(t, v, budget))
  {
    if v.Refused? {
      ConcludedShape(shop, t, Rejected(v.error));
    }
  }

  lemma ReadShape(shop: Shop, rows: seq<Row>, t: Txn)
    requires ShopOk(shop) && ShapeOk(shop, t) && t.phase.Reading?
    ensures ShapeOk(shop, AfterRead(shop, Check(shop, t.req).plan, rows, t))
  {
    var plan := Check(shop, t.req).plan;
    var s := DayScheduleOf(shop, rows, plan.query);
    var v := Select(s, plan.st, plan.iv);
    if v.Assigned? {
      forall id { SelectedRowOk(shop, rows, t.req, id); }
    }
    VerdictShape(shop, t, v, BudgetFor(t.phase.attempt, t.phase.budget, QualifiedPairs(s, plan.st)));
  }

  lemma RecheckShape(shop: Shop, rows: seq<Row>, t: Txn)
    requires ShopOk(shop) && ShapeOk(shop, t) && t.phase.Rechecking?
    ensures ShapeOk(shop, AfterRecheck(shop, Check(shop, t.req).plan, rows, t))
  {
    var plan := Check(shop, t.req).plan;
    var v := Select(DayScheduleOf(shop, rows, plan.query), plan.st, plan.iv);
    if v.Refused? {
      ConcludedShape(shop, t, Rejected(v.error));
    }
  }

  lemma InsertShape(shop: Shop, t: Txn, id: Id)
    requires ShopOk(shop) && ShapeOk(shop, t) && t.phase.Inserting?
    ensures ShapeOk(shop, AfterInsert(t, RowFor(shop, t, id)))
  {
    CheckedRequest(shop, t.req);
    var row := RowFor(shop, t, id);
    ConcludedShape(shop, t.(row := Some(row)), Booked(row));
  }

  lemma LocalShape(shop: Shop, rows: seq<Row>, t: Txn, action: Action)
    requires ShopOk(shop) && ShapeOk(shop, t) && Fits(shop, t, action)
    ensures ShapeOk(shop, LocalNext(shop, rows, t, action))
  {
    match action
    case Read => ReadShape(shop, rows, t);
    case Recheck => RecheckShape(shop, rows, t);
    case Insert(id) => InsertShape(shop, t, id);
    case Start =>
    case Lose =>
    case Save =>
  }

  ghost predicate ShapesOk(shop: Shop, s: State) {
    forall i :: 0 <= i < |s.txns| ==> ShapeOk(shop, s.txns[i])
  }

  lemma ActKeepsShapes(shop: Shop, s: State, i: nat, action: Action)
    requires ShopOk(shop) && ShapesOk(shop, s) && i < |s.txns| && CanAct(shop, s, i, action)
    ensures ShapesOk(shop, Act(shop, s, i, action))
  {
    var t := s.txns[i];
    assert ShapeOk(shop, t);
    if Fits(shop, t, action) {
      LocalShape(shop, s.db.rows, t, action);
    } else {
      OtherShape(shop, s, i, action);
    }
  }

  lemma OtherShape(shop: Shop, s: State, i: nat, action: Action)
    requires ShopOk(shop) && i < |s.txns| && CanAct(shop, s, i, action)
    requires ShapeOk(shop, s.txns[i]) && !Fits(shop, s.txns[i], action)
    ensures ShapeOk(shop, Act(shop, s, i, action).txns[i])
    ensures Act(shop, s, i, action).txns == s.txns[i := Act(shop, s, i, action).txns[i]]
  {
  }

  // ----- Locks -----

  predicate PastKey(t: Txn) {
    t.req.key.Some? && Active(t.phase) && !t.phase.WantKey?
  }

  predicate Holds(locks: map<LockId, nat>, l: LockId, i: nat) {
    l in locks && locks[l] == i
  }

  ghost predicate Owns(shop: Shop, t: Txn, l: LockId) {
    || (PastKey(t) && l == KeyLockOf(shop, t.req))
    || (PastDay(t.phase) && Check(shop, t.req).Ready? && l == DayLockOf(shop, t.req))
  }

  /** The lock table and the transactions agree on who holds what. */
  ghost predicate LocksOk(shop: Shop, s: State) {
    && (forall i, l :: 0 <= i < |s.txns| && Owns(shop, s.txns[i], l) ==> Holds(s.locks, l, i))
    && (forall l :: l in s.locks ==> s.locks[l] < |s.txns| && Owns(shop, s.txns[s.locks[l]], l))
  }

  lemma UnchangedLocks(shop: Shop, s: State, i: nat, t: Txn)
    requires LocksOk(shop, s) && i < |s.txns|
    requires t.req == s.txns[i].req && PastKey(t) == PastKey(s.txns[i]) && PastDay(t.phase) == PastDay(s.txns[i].phase)
    ensures LocksOk(shop, SetTxn(s, i, t))
  {
    assert forall l :: Owns(shop, t, l) <==> Owns(shop, s.txns[i], l);
  }

  lemma AcquiredLock(shop: Shop, s: State, i: nat, t: Txn, l0: LockId)
    requires LocksOk(shop, s) && i < |s.txns| && Grantable(s.locks, l0, i)
    requires forall l :: Owns(shop, t, l) <==> Owns(shop, s.txns[i], l) || l == l0
    ensures LocksOk(shop, SetTxn(s, i, t).(locks := s.locks[l0 := i]))
  {
  }

  lemma ReleasedLocks(shop: Shop, s: State, i: nat, t: Txn)
    requires LocksOk(shop, s) && i < |s.txns| && !Active(t.phase)
    ensures LocksOk(shop, SetTxn(s, i, t).(locks := Release(s.locks, i)))
  {
  }

  lemma KeyLockKept(shop: Shop, s: State, i: nat)
    requires LocksOk(shop, s) && i < |s.txns| && CanAct(shop, s, i, LockKey)
    ensures LocksOk(shop, Act(shop, s, i, LockKey))
  {
    var t := s.txns[i];
    AcquiredLock(shop, s, i, t.(phase := Finding), KeyLockOf(shop, t.req));
  }

  lemma DayLockKept(shop: Shop, s: State, i: nat)
    requires LocksOk(shop, s) && i < |s.txns| && CanAct(shop, s, i, LockDay)
    ensures LocksOk(shop, Act(shop, s, i, LockDay))
  {
    var t := s.txns[i];
    AcquiredLock(shop, s, i, t.(phase := Reading(0, shop.maxAttempts)), DayLockOf(shop, t.req));
  }

  lemma FindKeepsLocks(shop: Shop, s: State, i: nat)
    requires ShapesOk(shop, s) && LocksOk(shop, s) && i < |s.txns| && CanAct(shop, s, i, Find)
    ensures LocksOk(shop, Act(shop, s, i, Find))
  {
    var t := s.txns[i];
    assert ShapeOk(shop, t);
    if AfterFind(s.db, t).phase.Aborted? {
      ReleasedLocks(shop, s, i, Txn(t.req, Aborted, None, None));
    } else {
      UnchangedLocks(shop, s, i, AfterFind(s.db, t));
    }
  }

  lemma LocalKeepsLocks(shop: Shop, s: State, i: nat, action: Action)
    requires ShapesOk(shop, s) && LocksOk(shop, s) && i < |s.txns| && CanAct(shop, s, i, action)
    requires Fits(shop, s.txns[i], action)
    ensures LocksOk(shop, Act(shop, s, i, action))
  {
    var t := s.txns[i];
    assert ShapeOk(shop, t);
    UnchangedLocks(shop, s, i, LocalNext(shop, s.db.rows, t, action));
  }

  lemma ActKeepsLocks(shop: Shop, s: State, i: nat, action: Action)
    requires ShapesOk(shop, s) && LocksOk(shop, s) && i < |s.txns| && CanAct(shop, s, i, action)
    ensures LocksOk(shop, Act(shop, s, i, action))
  {
    match action
    case LockKey => KeyLockKept(shop, s, i);
    case LockDay => DayLockKept(shop, s, i);
    case Find => FindKeepsLocks(shop, s, i);
    case Commit => ReleasedLocks(shop, s, i, Txn(s.txns[i].req, Done(s.txns[i].phase.outcome), None, None));
    case Abort => ReleasedLocks(shop, s, i, Txn(s.txns[i].req, Aborted, None, None));
    case _ => LocalKeepsLocks(shop, s, i, action);
  }

  /** Any open transaction can be aborted: its writes and its locks are gone, and nothing else has changed. */
  lemma AbortUndoes(shop: Shop, s: State, i: nat)
    requires i < |s.txns| && Active(s.txns[i].phase)
    ensures CanAct(shop, s, i, Abort)
    ensures var s' := Act(shop, s, i, Abort);
            && s'.db == s.db && s'.log == s.log && s'.txns == s.txns[i := Txn(s.txns[i].req, Aborted, None, None)]
            && forall l, j :: Holds(s'.locks, l, j) <==> Holds(s.locks, l, j) && j != i
  {
  }
}
