/** One booking transaction: the checks before it, what each of its statements does next, and the
    same booking performed in one indivisible step (internal/service/scheduler.go). */
module Booking {
  import opened Intervals
  import opened Policy
  import opened Assignment
  import opened Hours
  import opened Schema

  const RETENTION: int := 24 * 60 * MINUTE

  /** A request together with the clock reading taken for it; no key means no idempotency. */
  datatype Request = Request(dealership: Id, vehicle: Id, service: Id, start: Instant, key: Option<Key>, now: Instant)

  /** The payload, standing for its hash. */
  datatype Fingerprint = Fingerprint(dealership: Id, vehicle: Id, service: Id, start: Instant)

  /** One row of idempotency_key. */
  datatype Record = Record(
    fingerprint: Fingerprint, appointment: Option<Id>, errorCode: Option<Code>, conflicting: seq<ResourceKind>,
    expires: Instant)

  /** The committed tables: appointments in commit order, and the idempotency records. */
  datatype Db = Db(rows: seq<Row>, records: map<(Id, Key), Record>)

  datatype Outcome = Booked(row: Row) | Rejected(error: DomainError)

  datatype Plan = Plan(st: ServiceType, iv: Interval, day: int, query: ScheduleQuery, customer: Id)

  datatype Precheck = Ready(plan: Plan) | Invalid(error: DomainError)

  function FingerprintOf(req: Request): Fingerprint {
    Fingerprint(req.dealership, req.vehicle, req.service, req.start)
  }

  // ----- Before the transaction -----

  /** Reference lookups, then the time rules. */
  function Check(shop: Shop, req: Request): Precheck {
    if req.dealership !in shop.dealerships then Invalid(DomainError(ResourceNotFound, []))
    else if req.service !in shop.services then Invalid(DomainError(ResourceNotFound, []))
    else if req.vehicle !in shop.vehicles || shop.vehicles[req.vehicle].dealership != req.dealership then
      Invalid(DomainError(ResourceNotFound, []))
    else
      var dl, st := shop.dealerships[req.dealership], shop.services[req.service];
      match ValidateBookingTime(req.start, st.duration, req.now, dl)
      case BadTime(code) => Invalid(DomainError(code, []))
      case Slot(iv) =>
        var day := DateOf(dl, iv.start);
        Ready(Plan(st, iv, day, ScheduleQuery(req.dealership, Bounds(dl, day), Some(req.vehicle)),
                   shop.vehicles[req.vehicle].customer))
  }

  /** The row Book writes for the chosen pair. */
  function NewRow(req: Request, plan: Plan, technician: Id, bay: Id, id: Id): Row {
    Row(id, req.dealership, req.vehicle, plan.customer, req.service, plan.st.skill, plan.st.bayType,
        technician, bay, plan.iv, Confirmed)
  }

  // ----- Idempotency records -----

  /** FindIdempotencyRecord: a stored record counts only while it has not expired. */
  function LiveRecord(records: map<(Id, Key), Record>, req: Request): Option<Record> {
    if req.key.Some? && (req.dealership, req.key.value) in records
       && records[(req.dealership, req.key.value)].expires > req.now
    then Some(records[(req.dealership, req.key.value)])
    else None
  }

  /** SaveIdempotencyRecord's row for an outcome. */
  function RecordOf(req: Request, outcome: Outcome): Record {
    match outcome
    case Booked(row) => Record(FingerprintOf(req), Some(row.id), None, [], req.now + RETENTION)
    case Rejected(e) => Record(FingerprintOf(req), None, Some(e.code), e.conflicting, req.now + RETENTION)
  }

  function FindRow(rows: seq<Row>, id: Id): Option<Row> {
    if |rows| == 0 then None
    else if rows[0].id == id then Some(rows[0])
    else FindRow(rows[1..], id)
  }

  lemma {:induction false} FindRowFinds(rows: seq<Row>, id: Id)
    ensures var r := FindRow(rows, id);
            && (r.Some? ==> r.value in rows && r.value.id == id)
            && (r.None? ==> forall k :: 0 <= k < |rows| ==> rows[k].id != id)
  {
    if |rows| == 0 || rows[0].id == id {
    } else {
      FindRowFinds(rows[1..], id);
      assert forall k :: 0 < k < |rows| ==> rows[k] == rows[1..][k - 1];
    }
  }

  /** The stored outcome again, or KEY_REUSED for another payload; None is a failed lookup. */
  function Replay(rows: seq<Row>, rec: Record, fingerprint: Fingerprint): Option<Outcome> {
    if rec.fingerprint != fingerprint then Some(Rejected(DomainError(IdempotencyKeyReused, [])))
    else if rec.appointment.Some? then
      match FindRow(rows, rec.appointment.value)
      case None => None
      case Some(row) => Some(Booked(row))
    else if rec.errorCode.Some? then Some(Rejected(DomainError(rec.errorCode.value, rec.conflicting)))
    else None
  }

  // ----- One transaction, statement by statement -----

  datatype Phase =
    | Idle
    | TurnedAway(error: DomainError)
    | WantKey
    | Finding
    | WantDay
    | Reading(attempt: nat, budget: nat)
    | Inserting(attempt: nat, budget: nat, technician: Id, bay: Id)
    | Rechecking
    | Saving(outcome: Outcome)
    | Committing(outcome: Outcome, replayed: bool)
    | Done(outcome: Outcome)
    | Aborted

  /** A transaction with its own uncommitted writes. */
  datatype Txn = Txn(req: Request, phase: Phase, row: Option<Row>, record: Option<Record>)

  function Max(a: int, b: int): int { if a < b then b else a }
  function Min(a: int, b: int): int { if a < b then a else b }

  function AfterCheck(shop: Shop, req: Request): Phase {
    match Check(shop, req)
    case Invalid(e) => TurnedAway(e)
    case Ready(_) => if req.key.Some? then WantKey else WantDay
  }

  /** The transaction holds the day lock: selection has started and the outcome is its own. */
  predicate PastDay(p: Phase) {
    p.Reading? || p.Inserting? || p.Rechecking? || p.Saving? || (p.Committing? && !p.replayed)
  }

  function AfterFind(db: Db, t: Txn): (n: Txn)
    ensures n.req == t.req && n.row == t.row && n.record == t.record
    ensures n.phase.WantDay? || n.phase.Aborted? || (n.phase.Committing? && n.phase.replayed)
  {
    match LiveRecord(db.records, t.req)
    case None => t.(phase := WantDay)
    case Some(rec) =>
      match Replay(db.rows, rec, FingerprintOf(t.req))
      case None => t.(phase := Aborted)
      case Some(outcome) => t.(phase := Committing(outcome, true))
  }

  /** A durable outcome is recorded first when the request carries a key. */
  function Conclude(t: Txn, outcome: Outcome): (n: Txn)
    ensures n.req == t.req && PastDay(n.phase) && n.row == t.row && n.record == t.record
  {
    t.(phase := if t.req.key.Some? then Saving(outcome) else Committing(outcome, false))
  }

  /** The scarcer of the two kinds of qualified resources. */
  function QualifiedPairs(s: DaySchedule, st: ServiceType): nat {
    Min(|Skilled(s.technicians, st.skill)|, |Typed(s.bays, st.bayType)|)
  }

  /** The budget is fixed from the first schedule read. */
  function BudgetFor(attempt: nat, budget: nat, qualified: nat): nat {
    if attempt == 0 then Max(budget, qualified + 1) else budget
  }

  function AfterRead(shop: Shop, plan: Plan, rows: seq<Row>, t: Txn): (n: Txn)
    requires t.phase.Reading?
    ensures n.req == t.req && PastDay(n.phase) && n.row == t.row && n.record == t.record
  {
    var s := DayScheduleOf(shop, rows, plan.query);
    AfterVerdict(t, Select(s, plan.st, plan.iv), BudgetFor(t.phase.attempt, t.phase.budget, QualifiedPairs(s, plan.st)))
  }

  function AfterVerdict(t: Txn, v: Verdict, budget: nat): (n: Txn)
    requires t.phase.Reading?
    ensures n.req == t.req && PastDay(n.phase) && n.row == t.row && n.record == t.record
  {
    match v
    case Refused(e) => Conclude(t, Rejected(e))
    case Assigned(technician, bay) => t.(phase := Inserting(t.phase.attempt, budget, technician, bay))
  }

  function AfterInsert(t: Txn, row: Row): Txn {
    Conclude(t.(row := Some(row)), Booked(row))
  }

  function AfterLoss(t: Txn): Txn
    requires t.phase.Inserting?
  {
    t.(phase := if t.phase.attempt + 1 < t.phase.budget then Reading(t.phase.attempt + 1, t.phase.budget)
                else Rechecking)
  }

  const CONTENDED: Outcome := Rejected(DomainError(Contention, []))

  function AfterRecheck(shop: Shop, plan: Plan, rows: seq<Row>, t: Txn): (n: Txn)
    ensures n.req == t.req && PastDay(n.phase) && n.row == t.row && n.record == t.record
    ensures n.phase.Saving? || n.phase.Committing?
  {
    AfterLastVerdict(t, Select(DayScheduleOf(shop, rows, plan.query), plan.st, plan.iv))
  }

  function AfterLastVerdict(t: Txn, v: Verdict): (n: Txn)
    ensures n.req == t.req && PastDay(n.phase) && n.row == t.row && n.record == t.record
    ensures n.phase.Saving? || n.phase.Committing?
  {
    match v
    case Refused(e) => Conclude(t, Rejected(e))
    case Assigned(_, _) => t.(phase := Committing(CONTENDED, false))
  }

  function AfterSave(t: Txn): Txn
    requires t.phase.Saving?
  {
    t.(phase := Committing(t.phase.outcome, false), record := Some(RecordOf(t.req, t.phase.outcome)))
  }

  /** An upper bound on the statements a transaction still has to execute. */
  function Remaining(shop: Shop, phase: Phase): nat {
    match phase
    case Idle => 2 * Max(shop.maxAttempts, |shop.technicians| + 1) + 9
    case WantKey => 2 * Max(shop.maxAttempts, |shop.technicians| + 1) + 8
    case Finding => 2 * Max(shop.maxAttempts, |shop.technicians| + 1) + 7
    case WantDay => 2 * Max(shop.maxAttempts, |shop.technicians| + 1) + 6
    case Reading(a, b) => 5 + 2 * if a == 0 then Max(b, |shop.technicians| + 1) else Max(b - a, 0)
    case Inserting(a, b, _, _) => 4 + 2 * Max(b - a, 0)
    case Rechecking => 3
    case Saving(_) => 2
    case Committing(_, _) => 1
    case TurnedAway(_) | Done(_) | Aborted => 0
  }

  lemma BudgetBound(shop: Shop, rows: seq<Row>, q: ScheduleQuery, attempt: nat, budget: nat, st: ServiceType)
    ensures BudgetFor(attempt, budget, QualifiedPairs(DayScheduleOf(shop, rows, q), st))
            <= if attempt == 0 then Max(budget, |shop.technicians| + 1) else budget
  {
    var at := TechniciansAt(shop.technicians, q.dealership);
    TechniciansAtMembers(shop.technicians, q.dealership);
    SkilledMembers(TechnicianDays(at, rows, q), st.skill);
    assert |Skilled(TechnicianDays(at, rows, q), st.skill)| <= |at| <= |shop.technicians|;
  }

  lemma VerdictAdvances(shop: Shop, t: Txn, v: Verdict, budget: nat)
    requires t.phase.Reading?
    requires budget <= if t.phase.attempt == 0 then Max(t.phase.budget, |shop.technicians| + 1) else t.phase.budget
    ensures Remaining(shop, AfterVerdict(t, v, budget).phase) < Remaining(shop, t.phase)
  {
  }

  lemma ReadingAdvances(shop: Shop, plan: Plan, rows: seq<Row>, t: Txn)
    requires t.phase.Reading?
    ensures Remaining(shop, AfterRead(shop, plan, rows, t).phase) < Remaining(shop, t.phase)
  {
    var s := DayScheduleOf(shop, rows, plan.query);
    BudgetBound(shop, rows, plan.query, t.phase.attempt, t.phase.budget, plan.st);
    VerdictAdvances(shop, t, Select(s, plan.st, plan.iv),
                    BudgetFor(t.phase.attempt, t.phase.budget, QualifiedPairs(s, plan.st)));
  }

  // ----- The same booking in one step -----

  datatype Effect = Effect(db: Db, outcome: Option<Outcome>)

  function Decision(req: Request, plan: Plan, v: Verdict, id: Id): Outcome {
    match v
    case Refused(e) => Rejected(e)
    case Assigned(technician, bay) => Booked(NewRow(req, plan, technician, bay, id))
  }

  /** The decision on one state of the appointment table. */
  function Decide(shop: Shop, rows: seq<Row>, req: Request, plan: Plan, id: Id): Outcome {
    Decision(req, plan, Select(DayScheduleOf(shop, rows, plan.query), plan.st, plan.iv), id)
  }

  function Upsert(records: map<(Id, Key), Record>, req: Request, record: Option<Record>): map<(Id, Key), Record> {
    if record.Some? && req.key.Some? then records[(req.dealership, req.key.value) := record.value] else records
  }

  function Publish(db: Db, req: Request, row: Option<Row>, record: Option<Record>): Db {
    Db(if row.Some? then db.rows + [row.value] else db.rows, Upsert(db.records, req, record))
  }

  /** Book on one database state, indivisibly; id is the identifier a new row would get. */
  function BookAtomically(shop: Shop, db: Db, req: Request, id: Id): Effect {
    match Check(shop, req)
    case Invalid(e) => Effect(db, Some(Rejected(e)))
    case Ready(plan) =>
      match LiveRecord(db.records, req)
      case Some(rec) => Effect(db, Replay(db.rows, rec, FingerprintOf(req)))
      case None =>
        var outcome := Decide(shop, db.rows, req, plan, id);
        Effect(Publish(db, req,
                       if outcome.Booked? then Some(outcome.row) else None,
                       if req.key.Some? then Some(RecordOf(req, outcome)) else None),
               Some(outcome))
  }
}
