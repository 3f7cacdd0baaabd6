/** The tables and their constraints (migrations 0001 and 0002), and the day's schedule as a
    per-resource filter of the appointment table. */
module Schema {
  import opened Intervals
  import opened Policy
  import opened Assignment
  import opened Hours

  type Key = nat
  type LockId = int

  datatype TechnicianRow = TechnicianRow(id: Id, dealership: Id, skills: seq<Id>)
  datatype BayRow = BayRow(id: Id, dealership: Id, kind: BayType)
  datatype VehicleRow = VehicleRow(dealership: Id, customer: Id)

  /** Reference data and configuration: constant while bookings run. The two lock functions are what
      hashing makes of (dealership, key) and (dealership, date); nothing is assumed about collisions. */
  datatype Shop = Shop(
    dealerships: map<Id, Dealership>, services: map<Id, ServiceType>, vehicles: map<Id, VehicleRow>,
    customers: set<Id>, technicians: seq<TechnicianRow>, bays: seq<BayRow>, maxAttempts: nat,
    keyLock: (Id, Key) -> LockId, dayLock: (Id, int) -> LockId)

  datatype Status = Confirmed | Cancelled

  /** One appointment row. */
  datatype Row = Row(
    id: Id, dealership: Id, vehicle: Id, customer: Id, service: Id, skill: Id, bayType: BayType,
    technician: Id, bay: Id, iv: Interval, status: Status)

  // ----- Reference data -----

  /** Primary keys, the CHECK constraints on reference rows and their foreign keys. Both resource
      tables are listed in ascending id order, as the loader reads them. */
  ghost predicate ShopOk(shop: Shop) {
    && shop.maxAttempts >= 1
    && TechniciansAscend(shop.technicians)
    && BaysAscend(shop.bays)
    && (forall s :: s in shop.services ==> shop.services[s].duration > 0 && shop.services[s].duration % MINUTE == 0)
    && (forall v :: v in shop.vehicles ==>
          shop.vehicles[v].dealership in shop.dealerships && shop.vehicles[v].customer in shop.customers)
  }

  ghost predicate TechniciansAscend(ts: seq<TechnicianRow>) {
    forall j, k :: 0 <= j < k < |ts| ==> ts[j].id < ts[k].id
  }

  ghost predicate BaysAscend(bs: seq<BayRow>) {
    forall j, k :: 0 <= j < k < |bs| ==> bs[j].id < bs[k].id
  }

  ghost predicate ClocksFit(shop: Shop) {
    forall d :: d in shop.dealerships ==> ClockFits(shop.dealerships[d])
  }

  ghost predicate CalendarsFit(shop: Shop) {
    forall d :: d in shop.dealerships ==> CalendarFits(shop.dealerships[d])
  }

  lemma ClocksFitCalendars(shop: Shop)
    requires ClocksFit(shop)
    ensures CalendarsFit(shop)
  {
    forall d | d in shop.dealerships ensures CalendarFits(shop.dealerships[d]) {
      ClockFitsCalendar(shop.dealerships[d]);
    }
  }

  // ----- Constraints on the appointment table -----

  /** The CHECK and every foreign key of one row. */
  predicate RowOk(shop: Shop, r: Row) {
    && r.iv.start < r.iv.end
    && r.dealership in shop.dealerships
    && r.customer in shop.customers
    && r.vehicle in shop.vehicles && shop.vehicles[r.vehicle].dealership == r.dealership
    && r.service in shop.services
    && shop.services[r.service].skill == r.skill
    && shop.services[r.service].bayType == r.bayType
    && (exists t :: t in shop.technicians && t.id == r.technician && t.dealership == r.dealership
                    && r.skill in t.skills)
    && (exists b :: b in shop.bays && b.id == r.bay && b.dealership == r.dealership && b.kind == r.bayType)
  }

  /** PostgreSQL's && on [) ranges: an empty range overlaps nothing. */
  predicate RangesOverlap(a: Interval, b: Interval) {
    a.start < a.end && b.start < b.end && a.Overlaps(b)
  }

  datatype Constraint = BayOverlap | TechnicianOverlap | VehicleOverlap

  predicate SameResource(c: Constraint, a: Row, b: Row) {
    match c
    case BayOverlap => a.bay == b.bay
    case TechnicianOverlap => a.technician == b.technician
    case VehicleOverlap => a.vehicle == b.vehicle
  }

  /** The pair of rows violates one of the three partial exclusion constraints. */
  predicate Excludes(c: Constraint, a: Row, b: Row) {
    a.status == Confirmed && b.status == Confirmed && SameResource(c, a, b) && RangesOverlap(a.iv, b.iv)
  }

  /** The first exclusion constraint that r violates against the rows, in the order they are declared. */
  function Violation(rows: seq<Row>, r: Row): Option<Constraint> {
    if exists o :: o in rows && Excludes(BayOverlap, r, o) then Some(BayOverlap)
    else if exists o :: o in rows && Excludes(TechnicianOverlap, r, o) then Some(TechnicianOverlap)
    else if exists o :: o in rows && Excludes(VehicleOverlap, r, o) then Some(VehicleOverlap)
    else None
  }

  // ----- The invariants of the requirements -----

  /** Two active appointments share a bay, a technician or a vehicle at overlapping times. */
  ghost predicate Clash(a: Row, b: Row) {
    && a.status == Confirmed && b.status == Confirmed && a.iv.Overlaps(b.iv)
    && (a.bay == b.bay || a.technician == b.technician || a.vehicle == b.vehicle)
  }

  /** INV-1, INV-2 and INV-3. */
  ghost predicate NoDoubleBooking(rows: seq<Row>) {
    forall j, k :: 0 <= j < k < |rows| ==> !Clash(rows[j], rows[k])
  }

  /** INV-4, INV-5 and INV-7, for the service type's own requirements. */
  ghost predicate QualifiedAndLocal(shop: Shop, r: Row) {
    && r.service in shop.services
    && (exists t :: t in shop.technicians && t.id == r.technician && t.dealership == r.dealership
          && shop.services[r.service].skill in t.skills)
    && (exists b :: b in shop.bays && b.id == r.bay && b.dealership == r.dealership
          && b.kind == shop.services[r.service].bayType)
    && r.vehicle in shop.vehicles && shop.vehicles[r.vehicle].dealership == r.dealership
  }

  ghost function DayOf(shop: Shop, r: Row): int
    requires r.dealership in shop.dealerships
  {
    DateOf(shop.dealerships[r.dealership], r.iv.start)
  }

  /** INV-6: the appointment lies inside the opening hours of its own local date. */
  ghost predicate InHours(shop: Shop, r: Row) {
    && r.dealership in shop.dealerships
    && InsideHours(shop.dealerships[r.dealership], DayOf(shop, r), r.iv)
  }

  /** On rows that pass the CHECK, the exclusion constraints forbid exactly the clashes. */
  lemma ExclusionForbidsClashes(rows: seq<Row>, r: Row)
    requires r.iv.start < r.iv.end && forall o :: o in rows ==> o.iv.start < o.iv.end
    ensures Violation(rows, r).None? <==> forall o :: o in rows ==> !Clash(r, o)
  {
    forall o | o in rows
      ensures Clash(r, o) <==> exists c :: Excludes(c, r, o)
    {
      if Clash(r, o) {
        var c :=
          if r.bay == o.bay then BayOverlap
          else if r.technician == o.technician then TechnicianOverlap
          else VehicleOverlap;
        assert Excludes(c, r, o);
      }
    }
  }

  /** Of several conflicts the one on the bay is reported before the technician's, and that before the vehicle's. */
  lemma FirstConflictReported(rows: seq<Row>, r: Row)
    ensures var bay := exists o :: o in rows && Excludes(BayOverlap, r, o);
            var technician := exists o :: o in rows && Excludes(TechnicianOverlap, r, o);
            && (Violation(rows, r) == Some(BayOverlap) <==> bay)
            && (Violation(rows, r) == Some(TechnicianOverlap) <==> technician && !bay)
            && (Violation(rows, r) == Some(VehicleOverlap) ==> !bay && !technician)
  {
  }

  /** Without the CHECK the constraints would let a zero-length appointment onto a taken bay. */
  lemma CheckIsLoadBearing(r: Row, o: Row)
    requires r.status == Confirmed && o.status == Confirmed && r.bay == o.bay
    requires r.iv.start == r.iv.end && o.iv.start < r.iv.start < o.iv.end
    ensures Clash(r, o) && Violation([o], r).None?
  {
  }

  // ----- The day's schedule -----

  datatype ScheduleQuery = ScheduleQuery(dealership: Id, day: Interval, vehicle: Option<Id>)

  datatype Resource = TheTechnician(id: Id) | TheBay(id: Id) | TheVehicle(id: Id)

  predicate Uses(r: Row, res: Resource) {
    match res
    case TheTechnician(id) => r.technician == id
    case TheBay(id) => r.bay == id
    case TheVehicle(id) => r.vehicle == id
  }

  /** The WHERE clause: confirmed rows of the dealership that start within the day. */
  predicate InDay(r: Row, q: ScheduleQuery) {
    r.dealership == q.dealership && r.status == Confirmed && q.day.Contains(r.iv.start)
  }

  /** The confirmed intervals of the day held by one resource. */
  function BookedFor(rows: seq<Row>, q: ScheduleQuery, res: Resource): seq<Interval> {
    if |rows| == 0 then []
    else
      var n := |rows| - 1;
      BookedFor(rows[..n], q, res) + if InDay(rows[n], q) && Uses(rows[n], res) then [rows[n].iv] else []
  }

  lemma {:induction false} NothingBooked(rows: seq<Row>, q: ScheduleQuery, res: Resource)
    requires forall k :: 0 <= k < |rows| ==> !InDay(rows[k], q)
    ensures BookedFor(rows, q, res) == []
  {
    if |rows| == 0 {
    } else {
      NothingBooked(rows[..|rows| - 1], q, res);
    }
  }

  function TechniciansAt(ts: seq<TechnicianRow>, d: Id): seq<TechnicianRow> {
    if |ts| == 0 then []
    else
      var n := |ts| - 1;
      TechniciansAt(ts[..n], d) + if ts[n].dealership == d then [ts[n]] else []
  }

  function BaysAt(bs: seq<BayRow>, d: Id): seq<BayRow> {
    if |bs| == 0 then []
    else
      var n := |bs| - 1;
      BaysAt(bs[..n], d) + if bs[n].dealership == d then [bs[n]] else []
  }

  function TechnicianDays(at: seq<TechnicianRow>, rows: seq<Row>, q: ScheduleQuery): (s: seq<Scheduled<Technician>>)
    ensures |s| == |at|
  {
    seq(|at|, k requires 0 <= k < |at| =>
      Scheduled(at[k].id, Technician(at[k].skills), BookedFor(rows, q, TheTechnician(at[k].id))))
  }

  function BayDays(at: seq<BayRow>, rows: seq<Row>, q: ScheduleQuery): (s: seq<Scheduled<Bay>>)
    ensures |s| == |at|
  {
    seq(|at|, k requires 0 <= k < |at| =>
      Scheduled(at[k].id, Bay(at[k].kind), BookedFor(rows, q, TheBay(at[k].id))))
  }

  function DayScheduleOf(shop: Shop, rows: seq<Row>, q: ScheduleQuery): DaySchedule {
    DaySchedule(
      TechnicianDays(TechniciansAt(shop.technicians, q.dealership), rows, q),
      BayDays(BaysAt(shop.bays, q.dealership), rows, q),
      if q.vehicle.Some? then BookedFor(rows, q, TheVehicle(q.vehicle.value)) else [])
  }

  // ----- Facts about the filter -----

  lemma {:induction false} TechniciansAtMembers(ts: seq<TechnicianRow>, d: Id)
    ensures forall x :: x in TechniciansAt(ts, d) <==> x in ts && x.dealership == d
    ensures |TechniciansAt(ts, d)| <= |ts|
  {
    if |ts| == 0 {
    } else {
      var n := |ts| - 1;
      TechniciansAtMembers(ts[..n], d);
      assert forall x :: x in ts <==> x in ts[..n] || x == ts[n];
    }
  }

  lemma {:induction false} BaysAtMembers(bs: seq<BayRow>, d: Id)
    ensures forall x :: x in BaysAt(bs, d) <==> x in bs && x.dealership == d
    ensures |BaysAt(bs, d)| <= |bs|
  {
    if |bs| == 0 {
    } else {
      var n := |bs| - 1;
      BaysAtMembers(bs[..n], d);
      assert forall x :: x in bs <==> x in bs[..n] || x == bs[n];
    }
  }

  lemma TechnicianDayMember(shop: Shop, rows: seq<Row>, q: ScheduleQuery, x: Scheduled<Technician>)
    requires x in DayScheduleOf(shop, rows, q).technicians
    ensures x.booked == BookedFor(rows, q, TheTechnician(x.id))
    ensures exists t :: t in shop.technicians && t.id == x.id && t.dealership == q.dealership
                        && t.skills == x.item.skills
  {
    var at := TechniciansAt(shop.technicians, q.dealership);
    var s := TechnicianDays(at, rows, q);
    var k :| 0 <= k < |s| && s[k] == x;
    TechniciansAtMembers(shop.technicians, q.dealership);
    assert at[k] in shop.technicians;
  }

  lemma BayDayMember(shop: Shop, rows: seq<Row>, q: ScheduleQuery, x: Scheduled<Bay>)
    requires x in DayScheduleOf(shop, rows, q).bays
    ensures x.booked == BookedFor(rows, q, TheBay(x.id))
    ensures exists b :: b in shop.bays && b.id == x.id && b.dealership == q.dealership && b.kind == x.item.kind
  {
    var at := BaysAt(shop.bays, q.dealership);
    var s := BayDays(at, rows, q);
    var k :| 0 <= k < |s| && s[k] == x;
    BaysAtMembers(shop.bays, q.dealership);
    assert at[k] in shop.bays;
  }

  lemma {:induction false} BookedForMembers(rows: seq<Row>, q: ScheduleQuery, res: Resource)
    ensures forall iv :: iv in BookedFor(rows, q, res) <==>
              exists r :: r in rows && InDay(r, q) && Uses(r, res) && r.iv == iv
  {
    if |rows| == 0 {
    } else {
      var n := |rows| - 1;
      BookedForMembers(rows[..n], q, res);
      assert forall r :: r in rows <==> r in rows[..n] || r == rows[n];
    }
  }

  lemma {:induction false} BookedForConcat(a: seq<Row>, b: seq<Row>, q: ScheduleQuery, res: Resource)
    ensures BookedFor(a + b, q, res) == BookedFor(a, q, res) + BookedFor(b, q, res)
  {
    if |b| == 0 {
      assert a + b == a;
    } else {
      var n := |b| - 1;
      BookedForConcat(a, b[..n], q, res);
      assert (a + b)[..|a + b| - 1] == a + b[..n];
    }
  }

  /** Appending a row changes one resource's day exactly when the row is in the day and uses it. */
  lemma BookedForAppend(rows: seq<Row>, r: Row, q: ScheduleQuery, res: Resource)
    ensures BookedFor(rows + [r], q, res) ==
              BookedFor(rows, q, res) + if InDay(r, q) && Uses(r, res) then [r.iv] else []
  {
    assert (rows + [r])[..|rows|] == rows;
  }

  lemma TechnicianDaysAppend(at: seq<TechnicianRow>, rows: seq<Row>, r: Row, q: ScheduleQuery)
    ensures var s, s' := TechnicianDays(at, rows, q), TechnicianDays(at, rows + [r], q);
            forall k :: 0 <= k < |at| ==>
              s'[k] == s[k].(booked := s[k].booked + if InDay(r, q) && r.technician == at[k].id then [r.iv] else [])
  {
    forall k | 0 <= k < |at| {
      BookedForAppend(rows, r, q, TheTechnician(at[k].id));
    }
  }

  lemma BayDaysAppend(at: seq<BayRow>, rows: seq<Row>, r: Row, q: ScheduleQuery)
    ensures var s, s' := BayDays(at, rows, q), BayDays(at, rows + [r], q);
            forall k :: 0 <= k < |at| ==>
              s'[k] == s[k].(booked := s[k].booked + if InDay(r, q) && r.bay == at[k].id then [r.iv] else [])
  {
    forall k | 0 <= k < |at| {
      BookedForAppend(rows, r, q, TheBay(at[k].id));
    }
  }

  /** A row outside the day leaves the whole schedule as it was. */
  lemma OtherDayLeavesSchedule(shop: Shop, rows: seq<Row>, r: Row, q: ScheduleQuery)
    requires !InDay(r, q)
    ensures DayScheduleOf(shop, rows + [r], q) == DayScheduleOf(shop, rows, q)
  {
    TechnicianDaysAppend(TechniciansAt(shop.technicians, q.dealership), rows, r, q);
    BayDaysAppend(BaysAt(shop.bays, q.dealership), rows, r, q);
    if q.vehicle.Some? {
      BookedForAppend(rows, r, q, TheVehicle(q.vehicle.value));
    }
    var s, s' := DayScheduleOf(shop, rows, q), DayScheduleOf(shop, rows + [r], q);
    assert forall booked: seq<Interval> :: booked + [] == booked;
    assert s.technicians == s'.technicians;
    assert s.bays == s'.bays;
  }
}
