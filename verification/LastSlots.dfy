/** Many requests for the same service and interval, fewer resources than requests: exactly as many
    are confirmed as there are free pairs, and everybody else hears which kind ran out. */
module LastSlots {
  import opened Intervals
  import opened Policy
  import opened Assignment
  import opened Hours
  import opened Schema
  import opened Booking
  import opened Protocol
  import opened Safety
  import opened Tables
  import opened Runs
  import opened Races
  import opened Serial

  // ----- Free resources, seen from the whole table -----

  /** Some confirmed appointment, on any day, has the resource at an overlapping time. */
  ghost predicate Busy(rows: seq<Row>, iv: Interval, res: Resource) {
    exists r :: r in rows && r.status == Confirmed && Uses(r, res) && r.iv.Overlaps(iv)
  }

  ghost predicate OpenTechnician(shop: Shop, rows: seq<Row>, d: Id, st: ServiceType, iv: Interval, t: TechnicianRow) {
    t in shop.technicians && t.dealership == d && st.skill in t.skills && !Busy(rows, iv, TheTechnician(t.id))
  }

  ghost predicate OpenBay(shop: Shop, rows: seq<Row>, d: Id, st: ServiceType, iv: Interval, b: BayRow) {
    b in shop.bays && b.dealership == d && b.kind == st.bayType && !Busy(rows, iv, TheBay(b.id))
  }

  /** The qualified technicians of the dealership who are free for the interval. */
  ghost function OpenTechnicians(shop: Shop, rows: seq<Row>, d: Id, st: ServiceType, iv: Interval): set<Id> {
    set t | t in shop.technicians && OpenTechnician(shop, rows, d, st, iv, t) :: t.id
  }

  ghost function OpenBays(shop: Shop, rows: seq<Row>, d: Id, st: ServiceType, iv: Interval): set<Id> {
    set b | b in shop.bays && OpenBay(shop, rows, d, st, iv, b) :: b.id
  }

  ghost predicate Local(shop: Shop, d: Id, res: Resource) {
    match res
    case TheTechnician(id) => exists t :: t in shop.technicians && t.id == id && t.dealership == d
    case TheBay(id) => exists b :: b in shop.bays && b.id == id && b.dealership == d
    case TheVehicle(id) => id in shop.vehicles && shop.vehicles[id].dealership == d
  }

  lemma UserIsLocal(shop: Shop, r: Row, d: Id, res: Resource)
    requires ShopOk(shop) && RowOk(shop, r) && Uses(r, res) && Local(shop, d, res)
    ensures r.dealership == d
  {
    match res
    case TheTechnician(id) =>
      var x :| x in shop.technicians && x.id == id && x.dealership == d;
      var y :| y in shop.technicians && y.id == id && y.dealership == r.dealership;
      assert x == y;
    case TheBay(id) =>
      var x :| x in shop.bays && x.id == id && x.dealership == d;
      var y :| y in shop.bays && y.id == id && y.dealership == r.dealership;
      assert x == y;
    case TheVehicle(id) =>
  }

  /** A row overlapping a request's interval at its dealership is a row of that request's day. */
  lemma OverlapIsSameDay(shop: Shop, r: Row, req: Request)
    requires ShopOk(shop) && ClocksFit(shop) && Check(shop, req).Ready?
    requires r.dealership == req.dealership && InHours(shop, r) && r.iv.start < r.iv.end
    requires r.iv.Overlaps(Check(shop, req).plan.iv)
    ensures DayOf(shop, r) == Check(shop, req).plan.day
    ensures Check(shop, req).plan.query.day.Contains(r.iv.start)
  {
    CheckedRequest(shop, req);
    var dl, own, day := shop.dealerships[r.dealership], DayOf(shop, r), Check(shop, req).plan.day;
    StartsInItsDay(shop, r, own);
    assert ClockFits(dl);
    assert own < day ==> Bounds(dl, own).end <= Bounds(dl, day).start;
    assert day < own ==> Bounds(dl, day).end <= Bounds(dl, own).start;
  }

  lemma BusyIsVisible(shop: Shop, rows: seq<Row>, req: Request, res: Resource)
    requires ShopOk(shop) && ClocksFit(shop) && RowsOk(shop, rows) && RowsInHours(shop, rows)
    requires Check(shop, req).Ready? && Local(shop, req.dealership, res)
    ensures var plan := Check(shop, req).plan;
            Busy(rows, plan.iv, res) <==> OverlapsAny(plan.iv, BookedFor(rows, plan.query, res))
  {
    CheckedRequest(shop, req);
    var plan := Check(shop, req).plan;
    BookedForMembers(rows, plan.query, res);
    if Busy(rows, plan.iv, res) {
      var r :| r in rows && r.status == Confirmed && Uses(r, res) && r.iv.Overlaps(plan.iv);
      assert RowOk(shop, r) && InHours(shop, r);
      UserIsLocal(shop, r, req.dealership, res);
      OverlapIsSameDay(shop, r, req);
      assert InDay(r, plan.query);
      assert r.iv in BookedFor(rows, plan.query, res);
    }
  }

  lemma TechnicianListed(shop: Shop, rows: seq<Row>, q: ScheduleQuery, t: TechnicianRow)
    returns (x: Scheduled<Technician>)
    requires t in shop.technicians && t.dealership == q.dealership
    ensures x in DayScheduleOf(shop, rows, q).technicians
    ensures x == Scheduled(t.id, Technician(t.skills), BookedFor(rows, q, TheTechnician(t.id)))
  {
    var at := TechniciansAt(shop.technicians, q.dealership);
    TechniciansAtMembers(shop.technicians, q.dealership);
    var k :| 0 <= k < |at| && at[k] == t;
    x := TechnicianDays(at, rows, q)[k];
  }

  lemma BayListed(shop: Shop, rows: seq<Row>, q: ScheduleQuery, b: BayRow) returns (x: Scheduled<Bay>)
    requires b in shop.bays && b.dealership == q.dealership
    ensures x in DayScheduleOf(shop, rows, q).bays
    ensures x == Scheduled(b.id, Bay(b.kind), BookedFor(rows, q, TheBay(b.id)))
  {
    var at := BaysAt(shop.bays, q.dealership);
    BaysAtMembers(shop.bays, q.dealership);
    var k :| 0 <= k < |at| && at[k] == b;
    x := BayDays(at, rows, q)[k];
  }

  /** The free technicians of the schedule that was read are those of the whole table. */
  lemma FreeTechnicianIsOpen(shop: Shop, rows: seq<Row>, req: Request, id: Id)
    requires ShopOk(shop) && ClocksFit(shop) && RowsOk(shop, rows) && RowsInHours(shop, rows) && Check(shop, req).Ready?
    ensures var plan := Check(shop, req).plan;
            id in OpenTechnicians(shop, rows, req.dealership, plan.st, plan.iv) <==>
            exists x :: FreeTechnician(DayScheduleOf(shop, rows, plan.query), plan.st, plan.iv, x) && x.id == id
  {
    CheckedRequest(shop, req);
    var plan := Check(shop, req).plan;
    var s := DayScheduleOf(shop, rows, plan.query);
    if id in OpenTechnicians(shop, rows, req.dealership, plan.st, plan.iv) {
      var t :| t in shop.technicians && OpenTechnician(shop, rows, req.dealership, plan.st, plan.iv, t) && t.id == id;
      BusyIsVisible(shop, rows, req, TheTechnician(id));
      var x := TechnicianListed(shop, rows, plan.query, t);
      assert FreeTechnician(s, plan.st, plan.iv, x);
    }
    if x :| FreeTechnician(s, plan.st, plan.iv, x) && x.id == id {
      TechnicianDayMember(shop, rows, plan.query, x);
      var t :| t in shop.technicians && t.id == id && t.dealership == req.dealership && t.skills == x.item.skills;
      BusyIsVisible(shop, rows, req, TheTechnician(id));
      assert OpenTechnician(shop, rows, req.dealership, plan.st, plan.iv, t);
    }
  }

  lemma FreeBayIsOpen(shop: Shop, rows: seq<Row>, req: Request, id: Id)
    requires ShopOk(shop) && ClocksFit(shop) && RowsOk(shop, rows) && RowsInHours(shop, rows) && Check(shop, req).Ready?
    ensures var plan := Check(shop, req).plan;
            id in OpenBays(shop, rows, req.dealership, plan.st, plan.iv) <==>
            exists x :: FreeBay(DayScheduleOf(shop, rows, plan.query), plan.st, plan.iv, x) && x.id == id
  {
    CheckedRequest(shop, req);
    var plan := Check(shop, req).plan;
    var s := DayScheduleOf(shop, rows, plan.query);
    if id in OpenBays(shop, rows, req.dealership, plan.st, plan.iv) {
      var b :| b in shop.bays && OpenBay(shop, rows, req.dealership, plan.st, plan.iv, b) && b.id == id;
      BusyIsVisible(shop, rows, req, TheBay(id));
      var x := BayListed(shop, rows, plan.query, b);
      assert FreeBay(s, plan.st, plan.iv, x);
    }
    if x :| FreeBay(s, plan.st, plan.iv, x) && x.id == id {
      BayDayMember(shop, rows, plan.query, x);
      var b :| b in shop.bays && b.id == id && b.dealership == req.dealership && b.kind == x.item.kind;
      BusyIsVisible(shop, rows, req, TheBay(id));
      assert OpenBay(shop, rows, req.dealership, plan.st, plan.iv, b);
    }
  }

  /** The refusal names exactly the kinds with nobody left, the bay first. */
  ghost predicate NamesExhausted(e: DomainError, noTechnician: bool, noBay: bool) {
    && e.code == NoAvailableResource
    && e.conflicting == (if noBay then [BAY] else []) + (if noTechnician then [TECHNICIAN] else [])
  }

  /** A request for a free vehicle is decided by the free resources of the whole table. */
  lemma DecidedByOpenSets(shop: Shop, rows: seq<Row>, req: Request)
    requires ShopOk(shop) && ClocksFit(shop) && RowsOk(shop, rows) && RowsInHours(shop, rows) && Check(shop, req).Ready?
    requires !Busy(rows, Check(shop, req).plan.iv, TheVehicle(req.vehicle))
    ensures var plan := Check(shop, req).plan;
            var techs := OpenTechnicians(shop, rows, req.dealership, plan.st, plan.iv);
            var bays := OpenBays(shop, rows, req.dealership, plan.st, plan.iv);
            match Select(DayScheduleOf(shop, rows, plan.query), plan.st, plan.iv)
            case Assigned(technician, bay) => technician in techs && bay in bays
            case Refused(e) => (techs == {} || bays == {}) && NamesExhausted(e, techs == {}, bays == {})
  {
    CheckedRequest(shop, req);
    var plan := Check(shop, req).plan;
    var s := DayScheduleOf(shop, rows, plan.query);
    var techs := OpenTechnicians(shop, rows, req.dealership, plan.st, plan.iv);
    var bays := OpenBays(shop, rows, req.dealership, plan.st, plan.iv);
    forall id ensures id in techs <==> exists x :: FreeTechnician(s, plan.st, plan.iv, x) && x.id == id {
      FreeTechnicianIsOpen(shop, rows, req, id);
    }
    forall id ensures id in bays <==> exists x :: FreeBay(s, plan.st, plan.iv, x) && x.id == id {
      FreeBayIsOpen(shop, rows, req, id);
    }
    BusyIsVisible(shop, rows, req, TheVehicle(req.vehicle));
    VerdictByFreeSets(s, plan.st, plan.iv, techs, bays);
  }

  lemma VerdictByFreeSets(s: DaySchedule, st: ServiceType, iv: Interval, techs: set<Id>, bays: set<Id>)
    requires forall id :: id in techs <==> exists x :: FreeTechnician(s, st, iv, x) && x.id == id
    requires forall id :: id in bays <==> exists x :: FreeBay(s, st, iv, x) && x.id == id
    requires !OverlapsAny(iv, s.vehicleBooked)
    ensures match Select(s, st, iv)
            case Assigned(technician, bay) => technician in techs && bay in bays
            case Refused(e) => (techs == {} || bays == {}) && NamesExhausted(e, techs == {}, bays == {})
  {
    SelectCharacterised(s, st, iv);
    assert techs == {} <==> !exists x :: FreeTechnician(s, st, iv, x) by {
      if x :| FreeTechnician(s, st, iv, x) { assert x.id in techs; }
    }
    assert bays == {} <==> !exists x :: FreeBay(s, st, iv, x) by {
      if x :| FreeBay(s, st, iv, x) { assert x.id in bays; }
    }
  }

  // ----- How a new row changes the free sets -----

  lemma BusyAfter(rows: seq<Row>, r: Row, iv: Interval, res: Resource)
    ensures Busy(rows + [r], iv, res) <==>
              Busy(rows, iv, res) || (r.status == Confirmed && Uses(r, res) && r.iv.Overlaps(iv))
  {
    assert forall o :: o in rows + [r] <==> o in rows || o == r;
  }

  lemma OpenAfter(shop: Shop, rows: seq<Row>, r: Row, d: Id, st: ServiceType, iv: Interval)
    requires r.status == Confirmed
    ensures OpenTechnicians(shop, rows + [r], d, st, iv) ==
              OpenTechnicians(shop, rows, d, st, iv) - if r.iv.Overlaps(iv) then {r.technician} else {}
    ensures OpenBays(shop, rows + [r], d, st, iv) ==
              OpenBays(shop, rows, d, st, iv) - if r.iv.Overlaps(iv) then {r.bay} else {}
  {
    forall res ensures Busy(rows + [r], iv, res) <==> Busy(rows, iv, res) || (Uses(r, res) && r.iv.Overlaps(iv)) {
      BusyAfter(rows, r, iv, res);
    }
  }

  /** A row of another dealership or another day takes nobody from the free sets and no vehicle. */
  lemma OutsiderTakesNothing(shop: Shop, rows: seq<Row>, r: Row, lead: Request)
    requires ShopOk(shop) && ClocksFit(shop) && Check(shop, lead).Ready?
    requires RowOk(shop, r) && InHours(shop, r) && r.status == Confirmed
    requires r.dealership != lead.dealership || DayOf(shop, r) != Check(shop, lead).plan.day
    ensures var plan := Check(shop, lead).plan;
            && OpenTechnicians(shop, rows + [r], lead.dealership, plan.st, plan.iv)
               == OpenTechnicians(shop, rows, lead.dealership, plan.st, plan.iv)
            && OpenBays(shop, rows + [r], lead.dealership, plan.st, plan.iv)
               == OpenBays(shop, rows, lead.dealership, plan.st, plan.iv)
            && (forall v :: v in shop.vehicles && shop.vehicles[v].dealership == lead.dealership ==>
                  (Busy(rows + [r], plan.iv, TheVehicle(v)) <==> Busy(rows, plan.iv, TheVehicle(v))))
  {
    var plan := Check(shop, lead).plan;
    OpenAfter(shop, rows, r, lead.dealership, plan.st, plan.iv);
    if r.iv.Overlaps(plan.iv) {
      if r.dealership == lead.dealership {
        OverlapIsSameDay(shop, r, lead);
        assert false;
      }
      if r.technician in OpenTechnicians(shop, rows, lead.dealership, plan.st, plan.iv) {
        UserIsLocal(shop, r, lead.dealership, TheTechnician(r.technician));
        assert false;
      }
      if r.bay in OpenBays(shop, rows, lead.dealership, plan.st, plan.iv) {
        UserIsLocal(shop, r, lead.dealership, TheBay(r.bay));
        assert false;
      }
    }
    forall v | v in shop.vehicles && shop.vehicles[v].dealership == lead.dealership
      ensures Busy(rows + [r], plan.iv, TheVehicle(v)) <==> Busy(rows, plan.iv, TheVehicle(v))
    {
      BusyAfter(rows, r, plan.iv, TheVehicle(v));
    }
  }

  // ----- The rush -----

  /** Same dealership, service type and start time. */
  predicate Joins(lead: Request, req: Request) {
    req.dealership == lead.dealership && req.service == lead.service && req.start == lead.start
  }

  /** Everyone who wants the lead's slot passes the checks, brings a vehicle of their own and shares
      an idempotency key with nobody; all other requests are for other dealership-days. */
  ghost predicate Rush(shop: Shop, lead: Request, txns: seq<Txn>) {
    && Check(shop, lead).Ready?
    && (forall i :: 0 <= i < |txns| && Joins(lead, txns[i].req) ==> Check(shop, txns[i].req).Ready?)
    && (forall i, j :: 0 <= i < |txns| && 0 <= j < |txns| && i != j && Joins(lead, txns[i].req) ==>
          && !SameKey(txns[j].req, txns[i].req)
          && (Joins(lead, txns[j].req) ==> txns[i].req.vehicle != txns[j].req.vehicle))
    && (forall i :: 0 <= i < |txns| && !Joins(lead, txns[i].req) && Check(shop, txns[i].req).Ready? ==>
          txns[i].req.dealership != lead.dealership || Check(shop, txns[i].req).plan.day != Check(shop, lead).plan.day)
  }

  /** The request has a free vehicle and no stored outcome. */
  ghost predicate Unserved(shop: Shop, db: Db, lead: Request, req: Request)
    requires Check(shop, lead).Ready?
  {
    !Busy(db.rows, Check(shop, lead).plan.iv, TheVehicle(req.vehicle)) && LiveRecord(db.records, req).None?
  }

  ghost predicate Waiting(shop: Shop, lead: Request, s: State)
    requires Check(shop, lead).Ready?
  {
    forall i :: 0 <= i < |s.txns| && Joins(lead, s.txns[i].req) && !s.txns[i].phase.Done? ==>
         Unserved(shop, s.db, lead, s.txns[i].req)
  }

  ghost predicate Won(lead: Request, t: Txn) {
    Joins(lead, t.req) && t.phase.Done? && t.phase.outcome.Booked?
  }

  ghost function Winners(lead: Request, txns: seq<Txn>): set<int> {
    set i | 0 <= i < |txns| && Won(lead, txns[i])
  }

  /** With T free technicians and B free bays at the beginning: each winner has used up one of each,
      and nobody was refused before one kind ran out. */
  ghost predicate Tally(shop: Shop, lead: Request, s: State, T: nat, B: nat)
    requires Check(shop, lead).Ready?
  {
    var plan, won := Check(shop, lead).plan, |Winners(lead, s.txns)|;
    && |OpenTechnicians(shop, s.db.rows, lead.dealership, plan.st, plan.iv)| == T - won
    && |OpenBays(shop, s.db.rows, lead.dealership, plan.st, plan.iv)| == B - won
    && forall i :: 0 <= i < |s.txns| && Joins(lead, s.txns[i].req) && s.txns[i].phase.Done?
                   && s.txns[i].phase.outcome.Rejected? ==>
         won == Min(T, B) && NamesExhausted(s.txns[i].phase.outcome.error, T <= B, B <= T)
  }

  lemma StatementKeepsTally(shop: Shop, lead: Request, s: State, i: nat, action: Action, T: nat, B: nat)
    requires i < |s.txns| && CanAct(shop, s, i, action) && !action.Commit?
    requires Check(shop, lead).Ready? && Waiting(shop, lead, s) && Tally(shop, lead, s, T, B)
    ensures Waiting(shop, lead, Act(shop, s, i, action)) && Tally(shop, lead, Act(shop, s, i, action), T, B)
  {
    var s' := Act(shop, s, i, action);
    OnlyOwnTxnMoves(shop, s, i, action);
    RequestsStay(shop, s, i, action);
    assert !s.txns[i].phase.Done?;
    assert Winners(lead, s'.txns) == Winners(lead, s.txns);
  }

  /** What one member of the rush commits, given the resources free at that moment. */
  ghost predicate Allotted(t: Txn, iv: Interval, techs: set<Id>, bays: set<Id>)
    requires t.phase.Committing?
  {
    match t.phase.outcome
    case Booked(row) =>
      && t.row == Some(row) && row.status == Confirmed && row.vehicle == t.req.vehicle && row.iv.Overlaps(iv)
      && row.technician in techs && row.bay in bays
    case Rejected(e) => t.row == None && (techs == {} || bays == {}) && NamesExhausted(e, techs == {}, bays == {})
  }

  lemma FreshDecision(shop: Shop, db: Db, t: Txn)
    requires t.phase.Committing? && Check(shop, t.req).Ready? && LiveRecord(db.records, t.req).None?
    requires ShapeOk(shop, t) && CurrentOk(shop, db, t) && KeyOk(db.records, t)
    ensures t.phase.outcome == Decide(shop, db.rows, t.req, Check(shop, t.req).plan, IdOf(t.phase.outcome))
    ensures t.row == if t.phase.outcome.Booked? then Some(t.phase.outcome.row) else None
  {
  }

  lemma MemberAllotted(shop: Shop, db: Db, t: Txn)
    requires t.phase.Committing? && Check(shop, t.req).Ready? && LiveRecord(db.records, t.req).None?
    requires ShapeOk(shop, t) && CurrentOk(shop, db, t) && KeyOk(db.records, t)
    requires ShopOk(shop) && ClocksFit(shop) && RowsOk(shop, db.rows) && RowsInHours(shop, db.rows)
    requires !Busy(db.rows, Check(shop, t.req).plan.iv, TheVehicle(t.req.vehicle))
    ensures var plan := Check(shop, t.req).plan;
            Allotted(t, plan.iv, OpenTechnicians(shop, db.rows, t.req.dealership, plan.st, plan.iv),
                     OpenBays(shop, db.rows, t.req.dealership, plan.st, plan.iv))
  {
    FreshDecision(shop, db, t);
    CheckedRequest(shop, t.req);
    DecidedByOpenSets(shop, db.rows, t.req);
  }

  lemma SamePlan(shop: Shop, lead: Request, req: Request)
    requires ShopOk(shop) && Check(shop, lead).Ready? && Check(shop, req).Ready? && Joins(lead, req)
    ensures var p, q := Check(shop, lead).plan, Check(shop, req).plan; p.st == q.st && p.iv == q.iv && p.day == q.day
  {
    CheckedRequest(shop, lead);
    CheckedRequest(shop, req);
  }

  lemma WinnersAfter(lead: Request, txns: seq<Txn>, i: nat, t: Txn)
    requires i < |txns| && !txns[i].phase.Done?
    ensures Winners(lead, txns[i := t]) == Winners(lead, txns) + if Won(lead, t) then {i} else {}
    ensures i !in Winners(lead, txns)
  {
  }

  /** A booked row inside the slot uses up one free technician and one free bay. */
  lemma TakenFromOpen(shop: Shop, rows: seq<Row>, r: Row, d: Id, st: ServiceType, iv: Interval)
    requires r.status == Confirmed && r.iv.Overlaps(iv)
    requires r.technician in OpenTechnicians(shop, rows, d, st, iv) && r.bay in OpenBays(shop, rows, d, st, iv)
    ensures |OpenTechnicians(shop, rows + [r], d, st, iv)| == |OpenTechnicians(shop, rows, d, st, iv)| - 1
    ensures |OpenBays(shop, rows + [r], d, st, iv)| == |OpenBays(shop, rows, d, st, iv)| - 1
  {
    OpenAfter(shop, rows, r, d, st, iv);
  }

  lemma WinnerKeepsTally(shop: Shop, lead: Request, s: State, i: nat, T: nat, B: nat)
    requires i < |s.txns| && s.txns[i].phase.Committing? && Joins(lead, s.txns[i].req)
             && s.txns[i].phase.outcome.Booked?
    requires Check(shop, lead).Ready? && Tally(shop, lead, s, T, B)
    requires var plan := Check(shop, lead).plan;
             Allotted(s.txns[i], plan.iv, OpenTechnicians(shop, s.db.rows, lead.dealership, plan.st, plan.iv),
                      OpenBays(shop, s.db.rows, lead.dealership, plan.st, plan.iv))
    ensures Tally(shop, lead, CommitTxn(s, i), T, B)
  {
    var plan := Check(shop, lead).plan;
    WinnersAfter(lead, s.txns, i, CommitTxn(s, i).txns[i]);
    TakenFromOpen(shop, s.db.rows, s.txns[i].phase.outcome.row, lead.dealership, plan.st, plan.iv);
  }

  lemma LoserKeepsTally(shop: Shop, lead: Request, s: State, i: nat, T: nat, B: nat)
    requires i < |s.txns| && s.txns[i].phase.Committing? && Joins(lead, s.txns[i].req)
             && s.txns[i].phase.outcome.Rejected?
    requires Check(shop, lead).Ready? && Tally(shop, lead, s, T, B)
    requires var plan := Check(shop, lead).plan;
             Allotted(s.txns[i], plan.iv, OpenTechnicians(shop, s.db.rows, lead.dealership, plan.st, plan.iv),
                      OpenBays(shop, s.db.rows, lead.dealership, plan.st, plan.iv))
    ensures Tally(shop, lead, CommitTxn(s, i), T, B)
  {
    WinnersAfter(lead, s.txns, i, CommitTxn(s, i).txns[i]);
  }

  /** A member's commit: one of each kind is used up, or one kind has already run out. */
  lemma AllottedKeepsTally(shop: Shop, lead: Request, s: State, i: nat, T: nat, B: nat)
    requires i < |s.txns| && s.txns[i].phase.Committing? && Joins(lead, s.txns[i].req)
    requires Check(shop, lead).Ready? && Tally(shop, lead, s, T, B)
    requires var plan := Check(shop, lead).plan;
             Allotted(s.txns[i], plan.iv, OpenTechnicians(shop, s.db.rows, lead.dealership, plan.st, plan.iv),
                      OpenBays(shop, s.db.rows, lead.dealership, plan.st, plan.iv))
    ensures Tally(shop, lead, CommitTxn(s, i), T, B)
  {
    if s.txns[i].phase.outcome.Booked? {
      WinnerKeepsTally(shop, lead, s, i, T, B);
    } else {
      LoserKeepsTally(shop, lead, s, i, T, B);
    }
  }

  lemma CommitKeepsWaiting(shop: Shop, lead: Request, s: State, i: nat)
    requires i < |s.txns| && s.txns[i].phase.Committing? && Rush(shop, lead, s.txns) && Waiting(shop, lead, s)
    requires forall j :: 0 <= j < |s.txns| && j != i && Joins(lead, s.txns[j].req) && !s.txns[j].phase.Done? ==>
               (!Busy(CommitTxn(s, i).db.rows, Check(shop, lead).plan.iv, TheVehicle(s.txns[j].req.vehicle)))
    ensures Waiting(shop, lead, CommitTxn(s, i))
  {
    var s' := CommitTxn(s, i);
    forall j | 0 <= j < |s'.txns| && Joins(lead, s'.txns[j].req) && !s'.txns[j].phase.Done?
      ensures Unserved(shop, s'.db, lead, s'.txns[j].req)
    {
      assert j != i && s'.txns[j] == s.txns[j];
      assert Unserved(shop, s.db, lead, s.txns[j].req);
      assert !SameKey(s.txns[i].req, s.txns[j].req);
    }
  }

  lemma MemberLeavesVehicles(shop: Shop, lead: Request, s: State, i: nat)
    requires i < |s.txns| && s.txns[i].phase.Committing? && Joins(lead, s.txns[i].req)
    requires Rush(shop, lead, s.txns) && Waiting(shop, lead, s)
    requires s.txns[i].row.Some? ==> s.txns[i].row.value.vehicle == s.txns[i].req.vehicle
    ensures forall j :: 0 <= j < |s.txns| && j != i && Joins(lead, s.txns[j].req) && !s.txns[j].phase.Done? ==>
              !Busy(CommitTxn(s, i).db.rows, Check(shop, lead).plan.iv, TheVehicle(s.txns[j].req.vehicle))
  {
    var t := s.txns[i];
    forall j | 0 <= j < |s.txns| && j != i && Joins(lead, s.txns[j].req) && !s.txns[j].phase.Done?
      ensures !Busy(CommitTxn(s, i).db.rows, Check(shop, lead).plan.iv, TheVehicle(s.txns[j].req.vehicle))
    {
      assert Unserved(shop, s.db, lead, s.txns[j].req);
      if t.row.Some? {
        BusyAfter(s.db.rows, t.row.value, Check(shop, lead).plan.iv, TheVehicle(s.txns[j].req.vehicle));
      }
    }
  }

  lemma MemberCommit(shop: Shop, lead: Request, s: State, i: nat, T: nat, B: nat)
    requires i < |s.txns| && s.txns[i].phase.Committing? && Joins(lead, s.txns[i].req)
    requires ShopOk(shop) && ClocksFit(shop) && BookingsInv(shop, s)
    requires Rush(shop, lead, s.txns) && Waiting(shop, lead, s) && Tally(shop, lead, s, T, B)
    ensures Waiting(shop, lead, CommitTxn(s, i)) && Tally(shop, lead, CommitTxn(s, i), T, B)
  {
    var t := s.txns[i];
    assert ShapeOk(shop, t) && CurrentOk(shop, s.db, t) && KeyOk(s.db.records, t) && Unserved(shop, s.db, lead, t.req);
    SamePlan(shop, lead, t.req);
    MemberAllotted(shop, s.db, t);
    AllottedKeepsTally(shop, lead, s, i, T, B);
    MemberLeavesVehicles(shop, lead, s, i);
    CommitKeepsWaiting(shop, lead, s, i);
  }

  /** The tables take nothing away from the lead's slot between db and after. */
  ghost predicate NothingTaken(shop: Shop, lead: Request, before: seq<Row>, after: seq<Row>)
    requires Check(shop, lead).Ready?
  {
    var plan := Check(shop, lead).plan;
    && OpenTechnicians(shop, after, lead.dealership, plan.st, plan.iv)
       == OpenTechnicians(shop, before, lead.dealership, plan.st, plan.iv)
    && OpenBays(shop, after, lead.dealership, plan.st, plan.iv)
       == OpenBays(shop, before, lead.dealership, plan.st, plan.iv)
    && (forall v :: v in shop.vehicles && shop.vehicles[v].dealership == lead.dealership ==>
          (Busy(after, plan.iv, TheVehicle(v)) <==> Busy(before, plan.iv, TheVehicle(v))))
  }

  lemma OutsiderPublishes(shop: Shop, lead: Request, db: Db, t: Txn)
    requires ShopOk(shop) && ClocksFit(shop) && ShapeOk(shop, t) && t.phase.Committing?
    requires Check(shop, lead).Ready? && Check(shop, t.req).Ready?
    requires t.req.dealership != lead.dealership || Check(shop, t.req).plan.day != Check(shop, lead).plan.day
    ensures NothingTaken(shop, lead, db.rows, Publish(db, t.req, t.row, t.record).rows)
  {
    if t.row.Some? {
      PendingRowDay(shop, t);
      OutsiderTakesNothing(shop, db.rows, t.row.value, lead);
    }
  }

  lemma NothingTakenKeepsTally(shop: Shop, lead: Request, s: State, i: nat, T: nat, B: nat)
    requires i < |s.txns| && s.txns[i].phase.Committing? && !Joins(lead, s.txns[i].req)
    requires Check(shop, lead).Ready? && Tally(shop, lead, s, T, B)
             && NothingTaken(shop, lead, s.db.rows, CommitTxn(s, i).db.rows)
    ensures Tally(shop, lead, CommitTxn(s, i), T, B)
  {
    WinnersAfter(lead, s.txns, i, CommitTxn(s, i).txns[i]);
  }

  lemma OutsiderCommit(shop: Shop, lead: Request, s: State, i: nat, T: nat, B: nat)
    requires i < |s.txns| && s.txns[i].phase.Committing? && !Joins(lead, s.txns[i].req)
    requires ShopOk(shop) && ClocksFit(shop) && ShapesOk(shop, s)
    requires Rush(shop, lead, s.txns) && Waiting(shop, lead, s) && Tally(shop, lead, s, T, B)
    ensures Waiting(shop, lead, CommitTxn(s, i)) && Tally(shop, lead, CommitTxn(s, i), T, B)
  {
    var s' := CommitTxn(s, i);
    assert ShapeOk(shop, s.txns[i]);
    OutsiderPublishes(shop, lead, s.db, s.txns[i]);
    NothingTakenKeepsTally(shop, lead, s, i, T, B);
    forall j | 0 <= j < |s.txns| && j != i && Joins(lead, s.txns[j].req) && !s.txns[j].phase.Done?
      ensures !Busy(s'.db.rows, Check(shop, lead).plan.iv, TheVehicle(s.txns[j].req.vehicle))
    {
      assert Unserved(shop, s.db, lead, s.txns[j].req);
      CheckedRequest(shop, s.txns[j].req);
    }
    CommitKeepsWaiting(shop, lead, s, i);
  }

  lemma ActKeepsTally(shop: Shop, lead: Request, s: State, i: nat, action: Action, T: nat, B: nat)
    requires i < |s.txns| && CanAct(shop, s, i, action)
    requires ShopOk(shop) && ClocksFit(shop) && BookingsInv(shop, s)
    requires Rush(shop, lead, s.txns) && Waiting(shop, lead, s) && Tally(shop, lead, s, T, B)
    ensures Waiting(shop, lead, Act(shop, s, i, action)) && Tally(shop, lead, Act(shop, s, i, action), T, B)
  {
    if !action.Commit? {
      StatementKeepsTally(shop, lead, s, i, action, T, B);
    } else if Joins(lead, s.txns[i].req) {
      MemberCommit(shop, lead, s, i, T, B);
    } else {
      OutsiderCommit(shop, lead, s, i, T, B);
    }
  }

  lemma RushStays(shop: Shop, lead: Request, s: State, i: nat, action: Action)
    requires i < |s.txns| && CanAct(shop, s, i, action) && Rush(shop, lead, s.txns)
    ensures Rush(shop, lead, Act(shop, s, i, action).txns)
  {
    RequestsStay(shop, s, i, action);
  }

  lemma {:induction false} RunKeepsTally(shop: Shop, db: Db, reqs: seq<Request>, evs: seq<Event>, lead: Request,
                                         T: nat, B: nat)
    requires ShopOk(shop) && ClocksFit(shop) && DbOk(shop, db) && RowsInHours(shop, db.rows)
    requires BookingsOnly(evs) && RunTo(shop, InitialState(db, reqs), evs).Some?
    requires var s := InitialState(db, reqs);
             Rush(shop, lead, s.txns) && Waiting(shop, lead, s) && Tally(shop, lead, s, T, B)
    ensures var s := RunTo(shop, InitialState(db, reqs), evs).value;
            Rush(shop, lead, s.txns) && Waiting(shop, lead, s) && Tally(shop, lead, s, T, B)
  {
    if |evs| == 0 {
    } else {
      var n := |evs| - 1;
      RunKeepsTally(shop, db, reqs, evs[..n], lead, T, B);
      RunKeepsBookings(shop, db, reqs, evs[..n]);
      var m := RunTo(shop, InitialState(db, reqs), evs[..n]).value;
      assert evs[n].Step?;
      ActKeepsTally(shop, lead, m, evs[n].i, evs[n].action, T, B);
      RushStays(shop, lead, m, evs[n].i, evs[n].action);
    }
  }

  lemma FirstTally(shop: Shop, db: Db, reqs: seq<Request>, lead: Request)
    requires Check(shop, lead).Ready?
    ensures var plan := Check(shop, lead).plan;
            Tally(shop, lead, InitialState(db, reqs),
                  |OpenTechnicians(shop, db.rows, lead.dealership, plan.st, plan.iv)|,
                  |OpenBays(shop, db.rows, lead.dealership, plan.st, plan.iv)|)
  {
    assert Winners(lead, InitialState(db, reqs).txns) == {};
  }

  ghost function Members(lead: Request, txns: seq<Txn>): set<int> {
    set i | 0 <= i < |txns| && Joins(lead, txns[i].req)
  }

  lemma SubsetSize(a: set<int>, b: set<int>)
    requires a <= b
    ensures |a| <= |b|
  {
    assert b == a + (b - a);
  }

  /** N requests for one slot with T free qualified technicians and B free qualified bays: in every
      interleaving that lets all of them finish, exactly min(N, T, B) are confirmed, and all others
      are told NO_AVAILABLE_RESOURCE naming exactly the kinds that ran out. */
  lemma LastSlotsGoToExactlyAsMany(shop: Shop, db: Db, reqs: seq<Request>, evs: seq<Event>, lead: Request)
    requires ShopOk(shop) && ClocksFit(shop) && DbOk(shop, db) && RowsInHours(shop, db.rows)
    requires BookingsOnly(evs) && RunTo(shop, InitialState(db, reqs), evs).Some?
    requires Rush(shop, lead, InitialState(db, reqs).txns) && Waiting(shop, lead, InitialState(db, reqs))
    requires var s := RunTo(shop, InitialState(db, reqs), evs).value;
             forall i :: 0 <= i < |s.txns| && Joins(lead, s.txns[i].req) ==> s.txns[i].phase.Done?
    ensures var plan, s := Check(shop, lead).plan, RunTo(shop, InitialState(db, reqs), evs).value;
            var T := |OpenTechnicians(shop, db.rows, lead.dealership, plan.st, plan.iv)|;
            var B := |OpenBays(shop, db.rows, lead.dealership, plan.st, plan.iv)|;
            && |Winners(lead, s.txns)| == Min(|Members(lead, s.txns)|, Min(T, B))
            && (forall i :: i in Members(lead, s.txns) && i !in Winners(lead, s.txns) ==>
                  s.txns[i].phase.outcome.Rejected? && NamesExhausted(s.txns[i].phase.outcome.error, T <= B, B <= T))
  {
    var plan := Check(shop, lead).plan;
    FirstTally(shop, db, reqs, lead);
    RunKeepsTally(shop, db, reqs, evs, lead, |OpenTechnicians(shop, db.rows, lead.dealership, plan.st, plan.iv)|,
                  |OpenBays(shop, db.rows, lead.dealership, plan.st, plan.iv)|);
    var s := RunTo(shop, InitialState(db, reqs), evs).value;
    var members, winners := Members(lead, s.txns), Winners(lead, s.txns);
    SubsetSize(winners, members);
    if i :| i in members && i !in winners {
      assert s.txns[i].phase.outcome.Rejected?;
    } else {
      assert members == winners;
    }
  }
}
