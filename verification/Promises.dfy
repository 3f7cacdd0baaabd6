/** What the requirements promise about one booking and about availability, written out in rows, instants
    and reference data only (docs/requirements.md, scheduler.go, domain/). */
module Promises {
  import opened Intervals
  import opened Policy
  import opened Assignment
  import opened Hours
  import opened Availability
  import opened Schema
  import opened Booking
  import opened Protocol
  import opened Safety
  import opened Tables
  import opened Races
  import opened LastSlots
  import opened Retry
  import opened Transaction
  import opened Service
  import opened Conformance
  import opened Alone

  // ----- Requests that do not reach the database -----

  predicate Referenced(shop: Shop, req: Request) {
    && req.dealership in shop.dealerships && req.service in shop.services
    && req.vehicle in shop.vehicles && shop.vehicles[req.vehicle].dealership == req.dealership
  }

  function RefusedAs(code: Code): BookResult {
    Answer(Rejected(DomainError(code, [])), None, None)
  }

  /** Whatever the database does: unknown references are RESOURCE_NOT_FOUND; then the past, the opening hours of
      the weekday on which the job starts and their closing time each have their own code. Nothing is written.
      Any other request passes the checks, and never hears one of these codes unless it was stored. */
  lemma BadRequestsAreNamed(shop: Shop, w: World, req: Request)
    requires ShopOk(shop)
    ensures var answer := BookUnder(shop, w, req);
            if !Referenced(shop, req) then answer == RefusedAs(ResourceNotFound)
            else
              var dl, duration := shop.dealerships[req.dealership], shop.services[req.service].duration;
              var date := dl.zone.dateOf(req.start);
              var weekday := (date + 4) % 7;
              if req.start < req.now then answer == RefusedAs(StartTimeInPast)
              else if weekday !in dl.hours || req.start < dl.zone.wall(date, dl.hours[weekday].opensAt)
                      || dl.zone.wall(date, dl.hours[weekday].closesAt) <= req.start then
                answer == RefusedAs(OutsideBusinessHours)
              else if dl.zone.wall(date, dl.hours[weekday].closesAt) < req.start + duration then
                answer == RefusedAs(ServiceExceedsClosingTime)
              else
                && Check(shop, req).Ready?
                && (answer.Answer? && answer.outcome.Rejected? && LiveRecord(w.tables(1).records, req).None? ==>
                      answer.outcome.error.code in {NoAvailableResource, VehicleAlreadyBooked, Contention})
  {
    if Referenced(shop, req) {
      var dl, st := shop.dealerships[req.dealership], shop.services[req.service];
      DecidedByWallClock(req.start, st.duration, req.now, dl);
      if Check(shop, req).Ready? {
        ReadyCodes(shop, w, req, BookUnder(shop, w, req));
      }
    }
  }

  lemma FreshCodes(shop: Shop, w: World, req: Request, answer: BookResult)
    requires ShopOk(shop) && Check(shop, req).Ready? && answer == BookUnder(shop, w, req)
    requires answer.Answer? && answer.outcome.Rejected? && LiveRecord(w.tables(1).records, req).None?
    ensures answer.outcome.error.code in {NoAvailableResource, VehicleAlreadyBooked, Contention}
  {
    var plan := Check(shop, req).plan;
    var o := BookIsHonest(shop, w, req, answer);
    if !Contends(answer.outcome) {
      var n: nat :| o.verdict(FirstRead(req) + 2 * n) == Refused(answer.outcome.error);
      var k := FirstRead(req) + 2 * n;
      assert o.verdict(k) == Select(DayAt(shop, w, plan, k), plan.st, plan.iv);
      SelectCharacterised(DayAt(shop, w, plan, k), plan.st, plan.iv);
    }
  }

  lemma ReadyCodes(shop: Shop, w: World, req: Request, answer: BookResult)
    requires ShopOk(shop) && Check(shop, req).Ready? && answer == BookUnder(shop, w, req)
    ensures answer.Answer? && answer.outcome.Rejected? && LiveRecord(w.tables(1).records, req).None? ==>
              answer.outcome.error.code in {NoAvailableResource, VehicleAlreadyBooked, Contention}
  {
    if answer.Answer? && answer.outcome.Rejected? && LiveRecord(w.tables(1).records, req).None? {
      FreshCodes(shop, w, req, answer);
    }
  }

  // ----- The day in plain terms -----

  /** A confirmed row of the dealership that starts between local midnight of the date and the next one. */
  predicate OfDay(dl: Dealership, date: int, d: Id, o: Row) {
    o.status == Confirmed && o.dealership == d && dl.zone.wall(date, 0) <= o.iv.start < dl.zone.wall(date + 1, 0)
  }

  predicate Engages(o: Row, res: Resource) {
    match res
    case TheTechnician(id) => o.technician == id
    case TheBay(id) => o.bay == id
    case TheVehicle(id) => o.vehicle == id
  }

  /** No row of the day engages the resource at a time in common with [start, end). */
  ghost predicate Unengaged(rows: seq<Row>, dl: Dealership, date: int, d: Id, start: Instant, end: Instant,
                            res: Resource) {
    forall o :: o in rows && OfDay(dl, date, d, o) && Engages(o, res) ==> o.iv.end <= start || end <= o.iv.start
  }

  /** Minutes assigned to the resource on the date, each appointment in whole minutes. */
  function AssignedMinutes(rows: seq<Row>, dl: Dealership, date: int, d: Id, res: Resource): int {
    if |rows| == 0 then 0
    else
      var o := rows[|rows| - 1];
      AssignedMinutes(rows[..|rows| - 1], dl, date, d, res)
      + if OfDay(dl, date, d, o) && Engages(o, res) then (o.iv.end - o.iv.start) / 60_000_000_000 else 0
  }

  /** A technician of the dealership with the skill and no appointment in the way. */
  ghost predicate TechnicianOpen(shop: Shop, rows: seq<Row>, d: Id, date: int, st: ServiceType, start: Instant,
                                 t: TechnicianRow)
    requires d in shop.dealerships
  {
    && t in shop.technicians && t.dealership == d && st.skill in t.skills
    && Unengaged(rows, shop.dealerships[d], date, d, start, start + st.duration, TheTechnician(t.id))
  }

  ghost predicate BayOpen(shop: Shop, rows: seq<Row>, d: Id, date: int, st: ServiceType, start: Instant, b: BayRow)
    requires d in shop.dealerships
  {
    && b in shop.bays && b.dealership == d && b.kind == st.bayType
    && Unengaged(rows, shop.dealerships[d], date, d, start, start + st.duration, TheBay(b.id))
  }

  // ----- The plain terms and the schedule -----

  function DateQuery(shop: Shop, d: Id, date: int, vehicle: Id): ScheduleQuery
    requires d in shop.dealerships
  {
    ScheduleQuery(d, Bounds(shop.dealerships[d], date), Some(vehicle))
  }

  lemma OfDayIsInDay(shop: Shop, d: Id, date: int, vehicle: Id, o: Row)
    requires d in shop.dealerships
    ensures OfDay(shop.dealerships[d], date, d, o) <==> InDay(o, DateQuery(shop, d, date, vehicle))
  {
  }

  lemma UnengagedIsFree(shop: Shop, rows: seq<Row>, d: Id, date: int, vehicle: Id, start: Instant, end: Instant,
                        res: Resource)
    requires d in shop.dealerships
    ensures Unengaged(rows, shop.dealerships[d], date, d, start, end, res) <==>
              !OverlapsAny(Interval(start, end), BookedFor(rows, DateQuery(shop, d, date, vehicle), res))
  {
    var q, iv := DateQuery(shop, d, date, vehicle), Interval(start, end);
    BookedForMembers(rows, q, res);
    forall o | o in rows && OfDay(shop.dealerships[d], date, d, o) && Engages(o, res)
      ensures o.iv in BookedFor(rows, q, res)
    {
      assert InDay(o, q) && Uses(o, res);
    }
    if OverlapsAny(iv, BookedFor(rows, q, res)) {
      var x :| x in BookedFor(rows, q, res) && iv.Overlaps(x);
      var o :| o in rows && InDay(o, q) && Uses(o, res) && o.iv == x;
      assert OfDay(shop.dealerships[d], date, d, o) && Engages(o, res);
    }
  }

  lemma RowMinutes(iv: Interval)
    requires iv.start <= iv.end
    ensures WholeMinutes(iv.Duration()) == (iv.end - iv.start) / 60_000_000_000
  {
    WholeMinutesCount(iv.Duration());
  }

  lemma {:induction false} AssignedMinutesAreLoad(shop: Shop, rows: seq<Row>, d: Id, date: int, vehicle: Id,
                                                  res: Resource)
    requires d in shop.dealerships && forall k :: 0 <= k < |rows| ==> rows[k].iv.start <= rows[k].iv.end
    ensures AssignedMinutes(rows, shop.dealerships[d], date, d, res)
            == LoadOf(BookedFor(rows, DateQuery(shop, d, date, vehicle), res))
  {
    if |rows| == 0 {
    } else {
      var n, q := |rows| - 1, DateQuery(shop, d, date, vehicle);
      AssignedMinutesAreLoad(shop, rows[..n], d, date, vehicle, res);
      OfDayIsInDay(shop, d, date, vehicle, rows[n]);
      RowMinutes(rows[n].iv);
      LoadAppend(BookedFor(rows[..n], q, res), rows[n].iv);
    }
  }

  /** The free technicians of the day's schedule are those with nothing in the way. */
  lemma OpenTechnicianIsFree(shop: Shop, rows: seq<Row>, d: Id, date: int, vehicle: Id, st: ServiceType,
                             start: Instant, t: TechnicianRow)
    returns (x: Scheduled<Technician>)
    requires ShopOk(shop) && d in shop.dealerships && TechnicianOpen(shop, rows, d, date, st, start, t)
    ensures FreeTechnician(DayScheduleOf(shop, rows, DateQuery(shop, d, date, vehicle)), st,
                           NewInterval(start, st.duration), x)
    ensures x.id == t.id && x.booked == BookedFor(rows, DateQuery(shop, d, date, vehicle), TheTechnician(t.id))
  {
    x := TechnicianListed(shop, rows, DateQuery(shop, d, date, vehicle), t);
    UnengagedIsFree(shop, rows, d, date, vehicle, start, start + st.duration, TheTechnician(t.id));
  }

  lemma TechnicianIsOpen(shop: Shop, rows: seq<Row>, d: Id, date: int, vehicle: Id, st: ServiceType, start: Instant,
                         x: Scheduled<Technician>)
    returns (t: TechnicianRow)
    requires ShopOk(shop) && d in shop.dealerships
    requires FreeTechnician(DayScheduleOf(shop, rows, DateQuery(shop, d, date, vehicle)), st,
                            NewInterval(start, st.duration), x)
    ensures TechnicianOpen(shop, rows, d, date, st, start, t) && x.id == t.id
    ensures x.booked == BookedFor(rows, DateQuery(shop, d, date, vehicle), TheTechnician(t.id))
  {
    var q := DateQuery(shop, d, date, vehicle);
    TechnicianDayMember(shop, rows, q, x);
    t :| t in shop.technicians && t.id == x.id && t.dealership == d && t.skills == x.item.skills;
    UnengagedIsFree(shop, rows, d, date, vehicle, start, start + st.duration, TheTechnician(t.id));
  }

  lemma OpenBayIsFree(shop: Shop, rows: seq<Row>, d: Id, date: int, vehicle: Id, st: ServiceType, start: Instant,
                      b: BayRow)
    returns (x: Scheduled<Bay>)
    requires ShopOk(shop) && d in shop.dealerships && BayOpen(shop, rows, d, date, st, start, b)
    ensures FreeBay(DayScheduleOf(shop, rows, DateQuery(shop, d, date, vehicle)), st, NewInterval(start, st.duration),
                    x)
    ensures x.id == b.id && x.booked == BookedFor(rows, DateQuery(shop, d, date, vehicle), TheBay(b.id))
  {
    x := BayListed(shop, rows, DateQuery(shop, d, date, vehicle), b);
    UnengagedIsFree(shop, rows, d, date, vehicle, start, start + st.duration, TheBay(b.id));
  }

  lemma BayIsOpen(shop: Shop, rows: seq<Row>, d: Id, date: int, vehicle: Id, st: ServiceType, start: Instant,
                  x: Scheduled<Bay>)
    returns (b: BayRow)
    requires ShopOk(shop) && d in shop.dealerships
    requires FreeBay(DayScheduleOf(shop, rows, DateQuery(shop, d, date, vehicle)), st,
                     NewInterval(start, st.duration), x)
    ensures BayOpen(shop, rows, d, date, st, start, b) && x.id == b.id
    ensures x.booked == BookedFor(rows, DateQuery(shop, d, date, vehicle), TheBay(b.id))
  {
    var q := DateQuery(shop, d, date, vehicle);
    BayDayMember(shop, rows, q, x);
    b :| b in shop.bays && b.id == x.id && b.dealership == d && b.kind == x.item.kind;
    UnengagedIsFree(shop, rows, d, date, vehicle, start, start + st.duration, TheBay(b.id));
  }

  // ----- The selection -----

  ghost predicate NoTechnician(shop: Shop, rows: seq<Row>, d: Id, date: int, st: ServiceType, start: Instant)
    requires d in shop.dealerships
  {
    !exists t :: TechnicianOpen(shop, rows, d, date, st, start, t)
  }

  ghost predicate NoBay(shop: Shop, rows: seq<Row>, d: Id, date: int, st: ServiceType, start: Instant)
    requires d in shop.dealerships
  {
    !exists b :: BayOpen(shop, rows, d, date, st, start, b)
  }

  /** Of the open technicians, nobody has fewer minutes, and nobody with as many a smaller identifier. */
  ghost predicate TechnicianFirst(shop: Shop, rows: seq<Row>, d: Id, date: int, st: ServiceType, start: Instant,
                                  t: TechnicianRow)
    requires d in shop.dealerships
  {
    var dl := shop.dealerships[d];
    && TechnicianOpen(shop, rows, d, date, st, start, t)
    && forall u :: TechnicianOpen(shop, rows, d, date, st, start, u) ==>
         var mine := AssignedMinutes(rows, dl, date, d, TheTechnician(t.id));
         var hers := AssignedMinutes(rows, dl, date, d, TheTechnician(u.id));
         mine < hers || (mine == hers && t.id <= u.id)
  }

  ghost predicate BayFirst(shop: Shop, rows: seq<Row>, d: Id, date: int, st: ServiceType, start: Instant, b: BayRow)
    requires d in shop.dealerships
  {
    var dl := shop.dealerships[d];
    && BayOpen(shop, rows, d, date, st, start, b)
    && forall c :: BayOpen(shop, rows, d, date, st, start, c) ==>
         var mine := AssignedMinutes(rows, dl, date, d, TheBay(b.id));
         var its := AssignedMinutes(rows, dl, date, d, TheBay(c.id));
         mine < its || (mine == its && b.id <= c.id)
  }

  /** The selection on the schedule of a date, in plain terms. */
  ghost predicate Selects(shop: Shop, rows: seq<Row>, d: Id, date: int, vehicle: Id, st: ServiceType, start: Instant,
                          v: Verdict)
    requires d in shop.dealerships
  {
    var noTech, noBay := NoTechnician(shop, rows, d, date, st, start), NoBay(shop, rows, d, date, st, start);
    if noTech || noBay then
      v == Refused(DomainError(NoAvailableResource,
                               if !noTech then [BAY] else if !noBay then [TECHNICIAN] else [BAY, TECHNICIAN]))
    else if !Unengaged(rows, shop.dealerships[d], date, d, start, start + st.duration, TheVehicle(vehicle)) then
      v == Refused(DomainError(VehicleAlreadyBooked, []))
    else
      && v.Assigned?
      && (exists t :: TechnicianFirst(shop, rows, d, date, st, start, t) && t.id == v.technician)
      && (exists b :: BayFirst(shop, rows, d, date, st, start, b) && b.id == v.bay)
  }

  lemma NoneFree(shop: Shop, rows: seq<Row>, d: Id, date: int, vehicle: Id, st: ServiceType, start: Instant)
    requires ShopOk(shop) && d in shop.dealerships
    ensures var s, iv := DayScheduleOf(shop, rows, DateQuery(shop, d, date, vehicle)), NewInterval(start, st.duration);
            && (NoTechnician(shop, rows, d, date, st, start) <==> !exists x :: FreeTechnician(s, st, iv, x))
            && (NoBay(shop, rows, d, date, st, start) <==> !exists x :: FreeBay(s, st, iv, x))
  {
    var s, iv := DayScheduleOf(shop, rows, DateQuery(shop, d, date, vehicle)), NewInterval(start, st.duration);
    if t :| TechnicianOpen(shop, rows, d, date, st, start, t) {
      var x := OpenTechnicianIsFree(shop, rows, d, date, vehicle, st, start, t);
    }
    if x :| FreeTechnician(s, st, iv, x) {
      var t := TechnicianIsOpen(shop, rows, d, date, vehicle, st, start, x);
    }
    if b :| BayOpen(shop, rows, d, date, st, start, b) {
      var x := OpenBayIsFree(shop, rows, d, date, vehicle, st, start, b);
    }
    if x :| FreeBay(s, st, iv, x) {
      var b := BayIsOpen(shop, rows, d, date, vehicle, st, start, x);
    }
  }

  lemma FirstTechnician(shop: Shop, rows: seq<Row>, d: Id, date: int, vehicle: Id, st: ServiceType, start: Instant)
    returns (t: TechnicianRow)
    requires ShopOk(shop) && d in shop.dealerships && forall k :: 0 <= k < |rows| ==> rows[k].iv.start <= rows[k].iv.end
    requires Select(DayScheduleOf(shop, rows, DateQuery(shop, d, date, vehicle)), st,
                    NewInterval(start, st.duration)).Assigned?
    ensures TechnicianFirst(shop, rows, d, date, st, start, t)
    ensures t.id == Select(DayScheduleOf(shop, rows, DateQuery(shop, d, date, vehicle)), st,
                           NewInterval(start, st.duration)).technician
  {
    var s, iv := DayScheduleOf(shop, rows, DateQuery(shop, d, date, vehicle)), NewInterval(start, st.duration);
    SelectCharacterised(s, st, iv);
    var x :| FreeTechnician(s, st, iv, x) && x.id == Select(s, st, iv).technician
             && forall y :: FreeTechnician(s, st, iv, y) ==> !Before(CandidateOf(y), CandidateOf(x));
    t := TechnicianIsOpen(shop, rows, d, date, vehicle, st, start, x);
    AssignedMinutesAreLoad(shop, rows, d, date, vehicle, TheTechnician(t.id));
    forall u | TechnicianOpen(shop, rows, d, date, st, start, u)
      ensures var mine, hers := AssignedMinutes(rows, shop.dealerships[d], date, d, TheTechnician(t.id)),
                                AssignedMinutes(rows, shop.dealerships[d], date, d, TheTechnician(u.id));
              mine < hers || (mine == hers && t.id <= u.id)
    {
      var y := OpenTechnicianIsFree(shop, rows, d, date, vehicle, st, start, u);
      AssignedMinutesAreLoad(shop, rows, d, date, vehicle, TheTechnician(u.id));
    }
  }

  lemma FirstBay(shop: Shop, rows: seq<Row>, d: Id, date: int, vehicle: Id, st: ServiceType, start: Instant)
    returns (b: BayRow)
    requires ShopOk(shop) && d in shop.dealerships && forall k :: 0 <= k < |rows| ==> rows[k].iv.start <= rows[k].iv.end
    requires Select(DayScheduleOf(shop, rows, DateQuery(shop, d, date, vehicle)), st,
                    NewInterval(start, st.duration)).Assigned?
    ensures BayFirst(shop, rows, d, date, st, start, b)
    ensures b.id == Select(DayScheduleOf(shop, rows, DateQuery(shop, d, date, vehicle)), st,
                           NewInterval(start, st.duration)).bay
  {
    var s, iv := DayScheduleOf(shop, rows, DateQuery(shop, d, date, vehicle)), NewInterval(start, st.duration);
    SelectCharacterised(s, st, iv);
    var x :| FreeBay(s, st, iv, x) && x.id == Select(s, st, iv).bay
             && forall y :: FreeBay(s, st, iv, y) ==> !Before(CandidateOf(y), CandidateOf(x));
    b := BayIsOpen(shop, rows, d, date, vehicle, st, start, x);
    AssignedMinutesAreLoad(shop, rows, d, date, vehicle, TheBay(b.id));
    forall c | BayOpen(shop, rows, d, date, st, start, c)
      ensures var mine, its := AssignedMinutes(rows, shop.dealerships[d], date, d, TheBay(b.id)),
                               AssignedMinutes(rows, shop.dealerships[d], date, d, TheBay(c.id));
              mine < its || (mine == its && b.id <= c.id)
    {
      var y := OpenBayIsFree(shop, rows, d, date, vehicle, st, start, c);
      AssignedMinutesAreLoad(shop, rows, d, date, vehicle, TheBay(c.id));
    }
  }

  /** The selection, on any rows of any date: who is refused and why, and who gets the work. */
  lemma SelectionInPlainTerms(shop: Shop, rows: seq<Row>, d: Id, date: int, vehicle: Id, st: ServiceType,
                              start: Instant)
    requires ShopOk(shop) && d in shop.dealerships && forall k :: 0 <= k < |rows| ==> rows[k].iv.start <= rows[k].iv.end
    ensures Selects(shop, rows, d, date, vehicle, st, start,
                    Select(DayScheduleOf(shop, rows, DateQuery(shop, d, date, vehicle)), st,
                           NewInterval(start, st.duration)))
  {
    var s, iv := DayScheduleOf(shop, rows, DateQuery(shop, d, date, vehicle)), NewInterval(start, st.duration);
    NoneFree(shop, rows, d, date, vehicle, st, start);
    UnengagedIsFree(shop, rows, d, date, vehicle, start, start + st.duration, TheVehicle(vehicle));
    SelectCharacterised(s, st, iv);
    if Select(s, st, iv).Assigned? {
      PairInPlainTerms(shop, rows, d, date, vehicle, st, start);
    }
  }

  lemma PairInPlainTerms(shop: Shop, rows: seq<Row>, d: Id, date: int, vehicle: Id, st: ServiceType, start: Instant)
    requires ShopOk(shop) && d in shop.dealerships && forall k :: 0 <= k < |rows| ==> rows[k].iv.start <= rows[k].iv.end
    requires Select(DayScheduleOf(shop, rows, DateQuery(shop, d, date, vehicle)), st,
                    NewInterval(start, st.duration)).Assigned?
    ensures var v := Select(DayScheduleOf(shop, rows, DateQuery(shop, d, date, vehicle)), st,
                            NewInterval(start, st.duration));
            && (exists t :: TechnicianFirst(shop, rows, d, date, st, start, t) && t.id == v.technician)
            && (exists b :: BayFirst(shop, rows, d, date, st, start, b) && b.id == v.bay)
  {
    var t := FirstTechnician(shop, rows, d, date, vehicle, st, start);
    var b := FirstBay(shop, rows, d, date, vehicle, st, start);
  }

  // ----- One booking, alone -----

  /** A confirmed row that the day does not show holds the pair or the vehicle at a time in common. */
  ghost predicate InTheWay(shop: Shop, rows: seq<Row>, req: Request, date: int, r: Row, o: Row)
    requires req.dealership in shop.dealerships
  {
    && o in rows && o.status == Confirmed && !OfDay(shop.dealerships[req.dealership], date, req.dealership, o)
    && (o.technician == r.technician || o.bay == r.bay || o.vehicle == r.vehicle)
    && o.iv.start < r.iv.end && r.iv.start < o.iv.end
  }

  /** What is stored under the key: the payload, the appointment or the code, for a day. */
  function Remembered(req: Request, appointment: Option<Id>, code: Option<Code>,
                      conflicting: seq<ResourceKind>): Option<Record> {
    if req.key.None? then None
    else Some(Record(Fingerprint(req.dealership, req.vehicle, req.service, req.start), appointment, code, conflicting,
                     req.now + 1440 * 60_000_000_000))
  }

  /** The answer to a request whose selection came out as v. */
  ghost predicate AnsweredBy(shop: Shop, rows: seq<Row>, req: Request, date: int, id: Id, v: Verdict,
                             answer: BookResult)
    requires Referenced(shop, req)
  {
    match v
    case Refused(e) => answer == Answer(Rejected(e), None, Remembered(req, None, Some(e.code), e.conflicting))
    case Assigned(technician, bay) =>
      var st := shop.services[req.service];
      var row := Row(id, req.dealership, req.vehicle, shop.vehicles[req.vehicle].customer, req.service,
                     st.skill, st.bayType, technician, bay, Interval(req.start, req.start + st.duration), Confirmed);
      if exists o :: InTheWay(shop, rows, req, date, row, o) then answer == RefusedAs(Contention)
      else answer == Answer(Booked(row), Some(row), Remembered(req, Some(id), None, []))
  }

  lemma HiddenInPlainTerms(shop: Shop, rows: seq<Row>, req: Request, date: int, r: Row)
    requires req.dealership in shop.dealerships && r.status == Confirmed
    ensures (exists o :: InTheWay(shop, rows, req, date, r, o)) <==>
              exists o :: HiddenRow(rows, DateQuery(shop, req.dealership, date, req.vehicle), r, o)
  {
    var q := DateQuery(shop, req.dealership, date, req.vehicle);
    forall o ensures InTheWay(shop, rows, req, date, r, o) <==> HiddenRow(rows, q, r, o) {
      OfDayIsInDay(shop, req.dealership, date, req.vehicle, o);
    }
  }

  lemma PlanInPlainTerms(shop: Shop, req: Request)
    requires ShopOk(shop) && Check(shop, req).Ready?
    ensures Referenced(shop, req)
    ensures var st, date := shop.services[req.service], shop.dealerships[req.dealership].zone.dateOf(req.start);
            Check(shop, req).plan == Plan(st, NewInterval(req.start, st.duration), date,
                                          DateQuery(shop, req.dealership, date, req.vehicle),
                                          shop.vehicles[req.vehicle].customer)
  {
    CheckedRequest(shop, req);
  }

  /** A lone booking of a request that passes the checks and has no live record, on any rows that meet the schema
      and in any time zone: Book's answer and everything it writes. */
  lemma LoneBooking(shop: Shop, db: Db, req: Request, id: Id) returns (v: Verdict)
    requires ShopOk(shop) && Check(shop, req).Ready? && LiveRecord(db.records, req).None?
    requires forall o :: o in db.rows ==> RowOk(shop, o)
    ensures Referenced(shop, req)
    ensures var date := shop.dealerships[req.dealership].zone.dateOf(req.start);
            && Selects(shop, db.rows, req.dealership, date, req.vehicle, shop.services[req.service], req.start, v)
            && AnsweredBy(shop, db.rows, req, date, id, v, BookUnder(shop, Quiet(db, id), req))
  {
    PlanInPlainTerms(shop, req);
    var plan := Check(shop, req).plan;
    v := Select(DayScheduleOf(shop, db.rows, plan.query), plan.st, plan.iv);
    forall k | 0 <= k < |db.rows| ensures db.rows[k].iv.start <= db.rows[k].iv.end {
      assert RowOk(shop, db.rows[k]);
    }
    SelectionInPlainTerms(shop, db.rows, req.dealership, plan.day, req.vehicle, plan.st, req.start);
    LoneAnswer(shop, db, req, id, v, BookUnder(shop, Quiet(db, id), req));
  }

  lemma LoneAnswer(shop: Shop, db: Db, req: Request, id: Id, v: Verdict, answer: BookResult)
    requires ShopOk(shop) && Check(shop, req).Ready? && LiveRecord(db.records, req).None? && Referenced(shop, req)
    requires forall o :: o in db.rows ==> RowOk(shop, o)
    requires var plan := Check(shop, req).plan; v == Select(DayScheduleOf(shop, db.rows, plan.query), plan.st, plan.iv)
    requires answer == BookUnder(shop, Quiet(db, id), req)
    ensures AnsweredBy(shop, db.rows, req, Check(shop, req).plan.day, id, v, answer)
  {
    var plan := Check(shop, req).plan;
    BookAlone(shop, db, req, id);
    if v.Assigned? {
      ViolationIsHidden(shop, db.rows, req, id);
    }
    DecisionAnswered(shop, db.rows, req, plan, id, v, Decide(shop, db.rows, req, plan, id));
  }

  /** What Settle answers is what the plain terms say. */
  lemma DecisionAnswered(shop: Shop, rows: seq<Row>, req: Request, plan: Plan, id: Id, v: Verdict, outcome: Outcome)
    requires ShopOk(shop) && Check(shop, req) == Ready(plan) && Referenced(shop, req)
             && outcome == Decision(req, plan, v, id)
    requires outcome.Booked? ==>
               (Violation(rows, outcome.row).Some? <==> exists o :: HiddenRow(rows, plan.query, outcome.row, o))
    ensures AnsweredBy(shop, rows, req, plan.day, id, v, Settle(rows, req, outcome))
  {
    PlanInPlainTerms(shop, req);
    if v.Assigned? {
      HiddenInPlainTerms(shop, rows, req, plan.day, outcome.row);
    }
  }

  // ----- Availability -----

  /** Exactly these times are listed for a date, in ascending order: whole steps after the opening time of its
      weekday, not past, done by the closing time, with a technician, a bay and the vehicle unengaged. */
  lemma ListedTimes(shop: Shop, rows: seq<Row>, d: Id, service: Id, vehicle: Id, date: int, now: Instant, g: int)
    requires ShopOk(shop) && d in shop.dealerships && service in shop.services
    ensures var slots := SlotsOn(shop, rows, d, service, vehicle, date, now, g);
            var dl, st, weekday := shop.dealerships[d], shop.services[service], (date + 4) % 7;
            && (forall j, k :: 0 <= j < k < |slots| ==> slots[j] < slots[k])
            && forall t :: t in slots <==>
                 && g > 0 && weekday in dl.hours
                 && (exists k: nat :: t == dl.zone.wall(date, dl.hours[weekday].opensAt) + k * g)
                 && now <= t && t + st.duration <= dl.zone.wall(date, dl.hours[weekday].closesAt)
                 && !NoTechnician(shop, rows, d, date, st, t) && !NoBay(shop, rows, d, date, st, t)
                 && Unengaged(rows, dl, date, d, t, t + st.duration, TheVehicle(vehicle))
  {
    var dl, st := shop.dealerships[d], shop.services[service];
    var q := DateQuery(shop, d, date, vehicle);
    var s := DayScheduleOf(shop, rows, q);
    assert st.duration > 0;
    if WindowOf(dl, date).Some? {
      var w := WindowOf(dl, date).value;
      SlotsExact(w, st, s, now, g);
      forall t ensures SlotOpen(w, st, s, now, t) <==>
                         && now <= t && t + st.duration <= w.close
                         && !NoTechnician(shop, rows, d, date, st, t) && !NoBay(shop, rows, d, date, st, t)
                         && Unengaged(rows, dl, date, d, t, t + st.duration, TheVehicle(vehicle))
      {
        NoneFree(shop, rows, d, date, vehicle, st, t);
        UnengagedIsFree(shop, rows, d, date, vehicle, t, t + st.duration, TheVehicle(vehicle));
        SelectCharacterised(s, st, NewInterval(t, st.duration));
      }
    }
  }

  // ----- Cancelling -----

  /** The tables after row k has been cancelled. */
  function Without(db: Db, k: nat): Db
    requires k < |db.rows|
  {
    Db(db.rows[k := db.rows[k].(status := Cancelled)], db.records)
  }

  /** The request for what row k holds. */
  predicate AsksFor(shop: Shop, req: Request, r: Row) {
    && req.dealership == r.dealership && req.vehicle == r.vehicle && req.service == r.service && req.start == r.iv.start
    && req.service in shop.services && r.iv.end == r.iv.start + shop.services[req.service].duration
       && req.now <= req.start
  }

  lemma AskedForIsReady(shop: Shop, req: Request, r: Row)
    requires ShopOk(shop) && RowOk(shop, r) && InHours(shop, r) && AsksFor(shop, req, r)
    ensures Check(shop, req).Ready?
  {
    DecidedByWallClock(req.start, shop.services[req.service].duration, req.now, shop.dealerships[req.dealership]);
  }

  /** Without row k nothing engages what it held at its time. */
  lemma NothingLeftInTheWay(shop: Shop, db: Db, k: nat, date: int, res: Resource)
    requires ShopOk(shop) && RowsOk(shop, db.rows) && k < |db.rows| && db.rows[k].status == Confirmed
             && Engages(db.rows[k], res)
    requires db.rows[k].dealership in shop.dealerships
    ensures var r := db.rows[k];
            Unengaged(Without(db, k).rows, shop.dealerships[r.dealership], date, r.dealership, r.iv.start, r.iv.end,
                      res)
  {
    var r, rows := db.rows[k], Without(db, k).rows;
    forall o | o in rows && OfDay(shop.dealerships[r.dealership], date, r.dealership, o) && Engages(o, res)
      ensures o.iv.end <= r.iv.start || r.iv.end <= o.iv.start
    {
      var n :| 0 <= n < |rows| && rows[n] == o;
      assert if n < k then Apart(db.rows[n], r) else Apart(r, db.rows[n]);
    }
  }

  lemma CancelledPairIsOpen(shop: Shop, db: Db, k: nat, req: Request, date: int)
    requires ShopOk(shop) && RowsOk(shop, db.rows) && k < |db.rows| && db.rows[k].status == Confirmed
    requires req.dealership in shop.dealerships && AsksFor(shop, req, db.rows[k])
    ensures !NoTechnician(shop, Without(db, k).rows, req.dealership, date, shop.services[req.service], req.start)
    ensures !NoBay(shop, Without(db, k).rows, req.dealership, date, shop.services[req.service], req.start)
    ensures Unengaged(Without(db, k).rows, shop.dealerships[req.dealership], date, req.dealership, req.start,
                      req.start + shop.services[req.service].duration, TheVehicle(req.vehicle))
  {
    var r, st := db.rows[k], shop.services[req.service];
    assert RowOk(shop, r);
    var t :| t in shop.technicians && t.id == r.technician && t.dealership == r.dealership && r.skill in t.skills;
    var b :| b in shop.bays && b.id == r.bay && b.dealership == r.dealership && b.kind == r.bayType;
    NothingLeftInTheWay(shop, db, k, date, TheTechnician(t.id));
    NothingLeftInTheWay(shop, db, k, date, TheBay(b.id));
    NothingLeftInTheWay(shop, db, k, date, TheVehicle(r.vehicle));
    assert TechnicianOpen(shop, Without(db, k).rows, req.dealership, date, st, req.start, t);
    assert BayOpen(shop, Without(db, k).rows, req.dealership, date, st, req.start, b);
  }

  lemma CancelKeepsGood(shop: Shop, db: Db, k: nat)
    requires ShopOk(shop) && DbOk(shop, db) && RowsInHours(shop, db.rows) && k < |db.rows|
    ensures DbOk(shop, Without(db, k)) && RowsInHours(shop, Without(db, k).rows)
    ensures Enabled(shop, InitialState(db, []), Cancel(k))
            && Apply(shop, InitialState(db, []), Cancel(k)).db == Without(db, k)
  {
    CancelKeepsTables(shop, InitialState(db, []), k);
  }

  /** Any confirmed appointment of good tables can be cancelled, and then Book, asked for the same again, confirms. */
  lemma CancelledCanBeBooked(shop: Shop, db: Db, k: nat, req: Request, id: Id)
    requires ShopOk(shop) && CalendarsFit(shop) && DbOk(shop, db) && RowsInHours(shop, db.rows) && k < |db.rows|
    requires db.rows[k].status == Confirmed && AsksFor(shop, req, db.rows[k]) && LiveRecord(db.records, req).None?
    ensures Enabled(shop, InitialState(db, []), Cancel(k))
    ensures var answer := BookUnder(shop, Quiet(Apply(shop, InitialState(db, []), Cancel(k)).db, id), req);
            answer.Answer? && answer.outcome.Booked?
  {
    CancelKeepsGood(shop, db, k);
    assert RowOk(shop, db.rows[k]) && InHours(shop, db.rows[k]);
    AskedForIsReady(shop, req, db.rows[k]);
    BooksWhatIsOpen(shop, db, k, req, id, BookUnder(shop, Quiet(Without(db, k), id), req));
  }

  lemma BooksWhatIsOpen(shop: Shop, db: Db, k: nat, req: Request, id: Id, answer: BookResult)
    requires ShopOk(shop) && CalendarsFit(shop) && DbOk(shop, db) && k < |db.rows| && db.rows[k].status == Confirmed
    requires DbOk(shop, Without(db, k)) && RowsInHours(shop, Without(db, k).rows)
    requires AsksFor(shop, req, db.rows[k]) && Check(shop, req).Ready? && LiveRecord(db.records, req).None?
    requires answer == BookUnder(shop, Quiet(Without(db, k), id), req)
    ensures answer.Answer? && answer.outcome.Booked?
  {
    var after := Without(db, k);
    OpenIsSelected(shop, db, k, req);
    SelectedRowAccepted(shop, after.rows, req, id);
    BookAlone(shop, after, req, id);
  }

  lemma OpenIsSelected(shop: Shop, db: Db, k: nat, req: Request)
    requires ShopOk(shop) && RowsOk(shop, db.rows) && k < |db.rows| && db.rows[k].status == Confirmed
    requires AsksFor(shop, req, db.rows[k]) && Check(shop, req).Ready?
    ensures var plan := Check(shop, req).plan;
            Select(DayScheduleOf(shop, Without(db, k).rows, plan.query), plan.st, plan.iv).Assigned?
  {
    var rows, plan := Without(db, k).rows, Check(shop, req).plan;
    PlanInPlainTerms(shop, req);
    CancelledPairIsOpen(shop, db, k, req, plan.day);
    NoneFree(shop, rows, req.dealership, plan.day, req.vehicle, plan.st, req.start);
    UnengagedIsFree(shop, rows, req.dealership, plan.day, req.vehicle, req.start, req.start + plan.st.duration,
                    TheVehicle(req.vehicle));
    SelectCharacterised(DayScheduleOf(shop, rows, plan.query), plan.st, plan.iv);
  }
}
