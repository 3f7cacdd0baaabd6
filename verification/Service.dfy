/** The booking service itself: Book with its retry loop, and Availability (internal/service/scheduler.go). */
module Service {
  import opened Intervals
  import opened Policy
  import opened Assignment
  import opened Hours
  import opened Availability
  import opened Schema
  import opened Booking
  import opened Loader
  import opened Protocol
  import opened Retry
  import opened Transaction

  // ----- Specification: the statement machine over a world -----

  /** The day's schedule as statement k sees it. */
  function DayAt(shop: Shop, w: World, plan: Plan, k: nat): DaySchedule {
    DayScheduleOf(shop, w.tables(k).rows, plan.query)
  }

  /** The world as the retry loop's environment. A replay looks the appointment up one statement
      after the record. */
  ghost function OracleOf(shop: Shop, w: World, plan: Plan): (o: Oracle)
    ensures OracleOk(o)
  {
    Oracle(
      (k: nat) => Select(DayAt(shop, w, plan, k), plan.st, plan.iv),
      (k: nat) => QualifiedPairs(DayAt(shop, w, plan, k), plan.st),
      (k: nat, r: Row) => !Beaten(w, k, r) && !RowOk(shop, r),
      (k: nat, r: Row) => Beaten(w, k, r),
      w.fault, w.id,
      (k: nat, t: Txn) => FindIn(w, k, t))
  }

  /** The oracle answers what a transaction in this world finds. */
  ghost predicate Observes(o: Oracle, shop: Shop, w: World, plan: Plan) {
    && (forall k: nat {:trigger DayAt(shop, w, plan, k)} ::
          && o.verdict(k) == Select(DayAt(shop, w, plan, k), plan.st, plan.iv)
          && o.qualified(k) == QualifiedPairs(DayAt(shop, w, plan, k), plan.st))
    && (forall k: nat, r: Row {:trigger Beaten(w, k, r)} ::
          o.loses(k, r) == Beaten(w, k, r) && o.broken(k, r) == (!Beaten(w, k, r) && !RowOk(shop, r)))
    && o.fault == w.fault && o.id == w.id
  }

  function FindIn(w: World, k: nat, t: Txn): (n: Txn)
    ensures n.phase.WantDay? || Concluded(n.phase)
  {
    match LiveRecord(w.tables(k).records, t.req)
    case None => t.(phase := WantDay)
    case Some(rec) =>
      match if w.fault(k + 1) && rec.fingerprint == FingerprintOf(t.req) && rec.appointment.Some? then None
            else Replay(w.tables(k + 1).rows, rec, FingerprintOf(t.req))
      case None => Txn(t.req, Aborted, None, None)
      case Some(outcome) => t.(phase := Committing(outcome, true))
  }

  /** What Book returns, and what its transaction has committed by then; Failure is an error other than
      a domain error, with everything rolled back. */
  datatype BookResult = Answer(outcome: Outcome, row: Option<Row>, record: Option<Record>) | Failure

  function Ending(t: Txn): BookResult {
    if t.phase.Committing? then Answer(t.phase.outcome, t.row, t.record) else Failure
  }

  ghost function BookUnder(shop: Shop, w: World, req: Request): BookResult {
    match Check(shop, req)
    case Invalid(e) => Answer(Rejected(e), None, None)
    case Ready(plan) =>
      Ending(RunUnder(shop.maxAttempts, OracleOf(shop, w, plan), plan, 0, Txn(req, AfterCheck(shop, req), None, None)))
  }

  // ----- The retry loop -----

  /** The write model before a pair has been chosen. */
  function Draft(req: Request, plan: Plan): NewAppointment {
    NewAppointment(req.dealership, req.vehicle, plan.customer, req.service, plan.st.skill, plan.st.bayType, 0, 0,
                   plan.iv)
  }

  /** What the loop returns: an outcome, transient or durable, or an error that rolls everything back. */
  datatype Attempted = Decided(outcome: Outcome, transient: bool) | Broken

  /** The transaction when the loop has returned. */
  function Settled(req: Request, row: Option<Row>, r: Attempted): Txn {
    match r
    case Broken => Txn(req, Aborted, None, None)
    case Decided(outcome, transient) =>
      if transient then Txn(req, Committing(outcome, false), row, None)
      else Conclude(Txn(req, WantDay, row, None), outcome)
  }

  /** What the loop returned, the row it left in the transaction, and the number of the next statement. */
  datatype Rounds = Rounds(r: Attempted, row: Option<Row>, next: nat)

  function LastLookAt(o: Oracle, k: nat): Attempted {
    if o.fault(k) then Broken
    else
      match o.verdict(k)
      case Refused(e) => Decided(Rejected(e), false)
      case Assigned(_, _) => Decided(CONTENDED, true)
  }

  /** The loop from attempt a on, starting with statement k. */
  function RoundsFrom(o: Oracle, req: Request, plan: Plan, k: nat, a: nat, budget: nat): Rounds
    decreases if a == 0 then 1 else 0, Max(budget - a, 0)
  {
    if a >= budget then Rounds(LastLookAt(o, k), None, k + 1)
    else if o.fault(k) then Rounds(Broken, None, k + 1)
    else
      match o.verdict(k)
      case Refused(e) => Rounds(Decided(Rejected(e), false), None, k + 1)
      case Assigned(technician, bay) =>
        var row := NewRow(req, plan, technician, bay, o.id(k + 1));
        if o.fault(k + 1) || o.broken(k + 1, row) then Rounds(Broken, None, k + 2)
        else if o.loses(k + 1, row) then RoundsFrom(o, req, plan, k + 2, a + 1, BudgetFor(a, budget, o.qualified(k)))
        else Rounds(Decided(Booked(row), false), Some(row), k + 2)
  }

  datatype Look = Look(verdict: Verdict, qualified: nat)

  /** One fresh look at the day: the selection's verdict and the number of qualified pairs. */
  method LookAtDay(tx: BookingTx, q: ScheduleQuery, st: ServiceType, iv: Interval, ghost plan: Plan, ghost o: Oracle)
    returns (r: Result<Look>)
    requires ShopOk(tx.shop) && tx.row == None && Observes(o, tx.shop, tx.world, plan)
    requires q == plan.query && st == plan.st && iv == plan.iv
    modifies tx`tick
    ensures tx.tick == old(tx.tick) + 1
    ensures r == if o.fault(old(tx.tick)) then Failed else Ok(Look(o.verdict(old(tx.tick)), o.qualified(old(tx.tick))))
  {
    var schedule := tx.DaySchedule(q);
    if schedule.Failed? {
      return Failed;
    }
    assert schedule.value == DayAt(tx.shop, tx.world, plan, old(tx.tick));
    var technicians := QualifiedTechnicians(schedule.value.technicians, st.skill);
    var bays := QualifiedBays(schedule.value.bays, st.bayType);
    var v, _, _ := Assign(schedule.value, st, iv);
    r := Ok(Look(v, Min(|technicians|, |bays|)));
  }

  /** One insert, in the oracle's terms: written, lost to a competitor, or broken off. */
  method TryInsert(tx: BookingTx, na: NewAppointment, ghost plan: Plan, ghost o: Oracle) returns (r: Insertion)
    requires tx.row == None && Observes(o, tx.shop, tx.world, plan)
    modifies tx`tick, tx`row
    ensures tx.tick == old(tx.tick) + 1
    ensures var k := old(tx.tick);
            var row := Stored(na, o.id(k));
            if o.fault(k) || o.broken(k, row) then r == NotInserted(Infrastructure) && tx.row == None
            else if o.loses(k, row) then r.NotInserted? && r.failure.LostRace? && tx.row == None
            else r == Inserted(row) && tx.row == Some(row)
  {
    LostRaceIffBeaten(tx.shop, tx.world, tx.tick, Stored(na, tx.world.id(tx.tick)));
    r := tx.InsertAppointment(na);
  }

  lemma DraftStored(na: NewAppointment, req: Request, plan: Plan, id: Id)
    requires na.(technician := 0, bay := 0) == Draft(req, plan)
    ensures Stored(na, id) == NewRow(req, plan, na.technician, na.bay, id)
  {
  }

  lemma LostRound(o: Oracle, req: Request, plan: Plan, k: nat, a: nat, budget: nat)
    requires a < budget && LostAt(o, req, plan, k)
    ensures RoundsFrom(o, req, plan, k, a, budget)
            == RoundsFrom(o, req, plan, k + 2, a + 1, BudgetFor(a, budget, o.qualified(k)))
  {
  }

  /** The insert of the pair selected at statement k: it ends the loop unless it is lost. */
  method InsertChosen(tx: BookingTx, na: NewAppointment, ghost req: Request, ghost plan: Plan, ghost o: Oracle,
                      ghost k: nat, ghost a: nat, ghost budget: nat) returns (r: Option<Attempted>)
    requires tx.row == None && tx.tick == k + 1 && Observes(o, tx.shop, tx.world, plan)
    requires !o.fault(k) && o.verdict(k) == Assigned(na.technician, na.bay) && a < budget
    requires na.(technician := 0, bay := 0) == Draft(req, plan)
    modifies tx`tick, tx`row
    ensures r.None? <==> LostAt(o, req, plan, k)
    ensures r.None? ==> tx.row == None && tx.tick == k + 2
    ensures r.Some? ==> RoundsFrom(o, req, plan, k, a, budget) == Rounds(r.value, tx.row, tx.tick)
  {
    DraftStored(na, req, plan, o.id(k + 1));
    var insertion := TryInsert(tx, na, plan, o);
    if insertion.Inserted? {
      return Some(Decided(Booked(insertion.row), false));
    }
    if insertion.failure.Infrastructure? {
      return Some(Broken);
    }
    r := None;
  }

  method AssignAndInsert(tx: BookingTx, q: ScheduleQuery, st: ServiceType, draft: NewAppointment, maxAttempts: nat,
                         ghost req: Request, ghost plan: Plan, ghost o: Oracle)
    returns (r: Attempted)
    requires ShopOk(tx.shop) && tx.row == None && tx.shop.dayLock(req.dealership, plan.day) in tx.held
    requires q == plan.query && st == plan.st && draft == Draft(req, plan)
    requires Observes(o, tx.shop, tx.world, plan)
    modifies tx`tick, tx`row
    ensures RoundsFrom(o, req, plan, old(tx.tick), 0, maxAttempts) == Rounds(r, tx.row, tx.tick)
  {
    var na, attempt, budget := draft, 0, maxAttempts;
    ghost var goal := RoundsFrom(o, req, plan, tx.tick, 0, maxAttempts);
    while attempt < budget
      invariant tx.row == None && attempt <= budget
      invariant attempt == 0 ==> budget == maxAttempts
      invariant na.(technician := 0, bay := 0) == draft
      invariant goal == RoundsFrom(o, req, plan, tx.tick, attempt, budget)
      decreases if attempt == 0 then 1 else 0, budget - attempt
    {
      ghost var k, given := tx.tick, budget;
      var look := LookAtDay(tx, q, st, na.iv, plan, o);
      if look.Failed? {
        return Broken;
      }
      if attempt == 0 {
        budget := Max(budget, look.value.qualified + 1);
      }
      if look.value.verdict.Refused? {
        return Decided(Rejected(look.value.verdict.error), false);
      }
      na := na.(technician := look.value.verdict.technician, bay := look.value.verdict.bay);
      var ended := InsertChosen(tx, na, req, plan, o, k, attempt, given);
      if ended.Some? {
        return ended.value;
      }
      LostRound(o, req, plan, k, attempt, given);
      attempt := attempt + 1;
    }
    r := LookOnceMore(tx, q, st, na.iv, plan, o);
  }

  /** When the budget is used up: a durable refusal, or contention. */
  method LookOnceMore(tx: BookingTx, q: ScheduleQuery, st: ServiceType, iv: Interval, ghost plan: Plan, ghost o: Oracle)
    returns (r: Attempted)
    requires ShopOk(tx.shop) && tx.row == None && Observes(o, tx.shop, tx.world, plan)
    requires q == plan.query && st == plan.st && iv == plan.iv
    modifies tx`tick
    ensures tx.tick == old(tx.tick) + 1 && r == LastLookAt(o, old(tx.tick))
  {
    var look := LookAtDay(tx, q, st, iv, plan, o);
    if look.Failed? {
      return Broken;
    }
    if look.value.verdict.Refused? {
      return Decided(Rejected(look.value.verdict.error), false);
    }
    r := Decided(CONTENDED, true);
  }

  /** The loop's rounds are the machine's statements. */
  lemma {:induction false} RoundsAreStatements(max: nat, o: Oracle, req: Request, plan: Plan, k: nat, a: nat, b: nat)
    requires OracleOk(o)
    ensures var rounds := RoundsFrom(o, req, plan, k, a, b);
            RunUnder(max, o, plan, k, Txn(req, LoopPhase(a, b), None, None))
            == RunUnder(max, o, plan, rounds.next, Settled(req, rounds.row, rounds.r))
    decreases if a == 0 then 1 else 0, Max(b - a, 0)
  {
    var t := Txn(req, LoopPhase(a, b), None, None);
    var n := Execute(max, o, plan, k, t);
    assert RunUnder(max, o, plan, k, t) == RunUnder(max, o, plan, k + 1, n);
    if a < b && !o.fault(k) && o.verdict(k).Assigned? {
      var m := Execute(max, o, plan, k + 1, n);
      assert RunUnder(max, o, plan, k + 1, n) == RunUnder(max, o, plan, k + 2, m);
      var row := NewRow(req, plan, o.verdict(k).technician, o.verdict(k).bay, o.id(k + 1));
      if !o.fault(k + 1) && !o.broken(k + 1, row) && o.loses(k + 1, row) {
        RoundsAreStatements(max, o, req, plan, k + 2, a + 1, BudgetFor(a, b, o.qualified(k)));
      }
    }
  }

  // ----- Book -----

  /** What the machine does up to the day lock, from statement 0. */
  lemma KeySteps(max: nat, o: Oracle, plan: Plan, req: Request)
    requires OracleOk(o)
    ensures var whole := RunUnder(max, o, plan, 0, Txn(req, WantKey, None, None));
            if o.fault(0) || o.fault(1) then whole == Settled(req, None, Broken)
            else whole == RunUnder(max, o, plan, 2, o.found(1, Txn(req, Finding, None, None)))
  {
    var asking, finding := Txn(req, WantKey, None, None), Txn(req, Finding, None, None);
    assert RunUnder(max, o, plan, 0, asking) == RunUnder(max, o, plan, 1, Execute(max, o, plan, 0, asking));
    assert RunUnder(max, o, plan, 1, finding) == RunUnder(max, o, plan, 2, Execute(max, o, plan, 1, finding));
  }

  lemma DaySteps(max: nat, o: Oracle, plan: Plan, req: Request, k: nat)
    requires OracleOk(o) && max >= 1
    ensures var whole := RunUnder(max, o, plan, k, Txn(req, WantDay, None, None));
            if o.fault(k) then whole == Settled(req, None, Broken)
            else var rounds := RoundsFrom(o, req, plan, k + 1, 0, max);
                 whole == RunUnder(max, o, plan, rounds.next, Settled(req, rounds.row, rounds.r))
  {
    RoundsAreStatements(max, o, req, plan, k + 1, 0, max);
    assert LoopPhase(0, max) == Reading(0, max);
  }

  lemma SaveSteps(max: nat, o: Oracle, plan: Plan, req: Request, k: nat, row: Option<Row>, r: Attempted)
    requires OracleOk(o)
    ensures Ending(RunUnder(max, o, plan, k, Settled(req, row, r))) ==
            match r
            case Broken => Failure
            case Decided(outcome, transient) =>
              if transient || req.key.None? then Answer(outcome, row, None)
              else if o.fault(k) then Failure
              else Answer(outcome, row, Some(RecordOf(req, outcome)))
  {
    if r.Decided? && !r.transient && req.key.Some? {
      assert RunUnder(max, o, plan, k, Settled(req, row, r))
             == RunUnder(max, o, plan, k + 1, Execute(max, o, plan, k, Settled(req, row, r)));
    }
  }

  /** Reproduces the stored outcome. */
  method ReplayStored(tx: BookingTx, rec: Record, fingerprint: Fingerprint) returns (r: Result<Outcome>)
    requires tx.row == None
    modifies tx`tick
    ensures var k := old(tx.tick);
            var replayed := Replay(tx.world.tables(k).rows, rec, fingerprint);
            r == if tx.world.fault(k) && rec.fingerprint == fingerprint && rec.appointment.Some? then Failed
                 else if replayed.None? then Failed else Ok(replayed.value)
  {
    if rec.fingerprint != fingerprint {
      return Ok(Rejected(DomainError(IdempotencyKeyReused, [])));
    }
    if rec.appointment.Some? {
      var found := tx.Appointment(rec.appointment.value);
      return if found.Failed? then Failed else Ok(Booked(found.value));
    }
    if rec.errorCode.None? {
      return Failed;
    }
    r := Ok(Rejected(DomainError(rec.errorCode.value, rec.conflicting)));
  }

  /** From the day lock on: select, insert and record the outcome unless it is transient. */
  method BookOnDay(tx: BookingTx, req: Request, plan: Plan, ghost o: Oracle) returns (r: BookResult)
    requires ShopOk(tx.shop) && tx.row == None && tx.record == None
    requires OracleOk(o) && Observes(o, tx.shop, tx.world, plan)
    modifies tx
    ensures r == Ending(RunUnder(tx.shop.maxAttempts, o, plan, old(tx.tick), Txn(req, WantDay, None, None)))
    ensures tx.held <= old(tx.held) + [tx.shop.dayLock(req.dealership, plan.day)]
    ensures r.Answer? ==> tx.held == old(tx.held) + [tx.shop.dayLock(req.dealership, plan.day)]
  {
    DaySteps(tx.shop.maxAttempts, o, plan, req, tx.tick);
    var locked := tx.LockSchedulingDay(req.dealership, plan.day);
    if !locked {
      return Failure;
    }
    var attempted := AssignAndInsert(tx, plan.query, plan.st, Draft(req, plan), tx.shop.maxAttempts, req, plan, o);
    SaveSteps(tx.shop.maxAttempts, o, plan, req, tx.tick, tx.row, attempted);
    if attempted.Broken? {
      return Failure;
    }
    if req.key.Some? && !attempted.transient {
      var saved := tx.SaveIdempotencyRecord(RecordOf(req, attempted.outcome));
      if !saved {
        return Failure;
      }
    }
    r := Answer(attempted.outcome, tx.row, tx.record);
  }

  /** Finds the live record of the request's key, if any, and reproduces its outcome. */
  method FindStored(tx: BookingTx, req: Request, key: Key) returns (r: Result<Option<Outcome>>)
    requires tx.row == None && tx.record == None && req.key == Some(key)
    requires tx.shop.keyLock(req.dealership, key) in tx.held
    modifies tx`tick
    ensures var k := old(tx.tick);
            var found := FindIn(tx.world, k, Txn(req, Finding, None, None));
            if tx.world.fault(k) then r == Failed
            else match r
                 case Failed => found == Txn(req, Aborted, None, None)
                 case Ok(None) => found == Txn(req, WantDay, None, None) && tx.tick == k + 1
                 case Ok(Some(outcome)) => found == Txn(req, Committing(outcome, true), None, None)
  {
    var rec := tx.FindIdempotencyRecord(req.dealership, key, req.now);
    if rec.Failed? {
      return Failed;
    }
    if rec.value.None? {
      return Ok(None);
    }
    var replayed := ReplayStored(tx, rec.value.value, FingerprintOf(req));
    r := if replayed.Failed? then Failed else Ok(Some(replayed.value));
  }

  /** The locks in the order in which a booking takes them: the key's if it has one, then the day's unless the
      key has a live record. */
  function LocksTaken(shop: Shop, w: World, req: Request): seq<LockId>
    requires Check(shop, req).Ready?
  {
    (if req.key.Some? then [KeyLockOf(shop, req)] else [])
    + (if LiveRecord(w.tables(1).records, req).Some? then [] else [DayLockOf(shop, req)])
  }

  method BookInTx(tx: BookingTx, req: Request, plan: Plan, ghost o: Oracle) returns (r: BookResult)
    requires ShopOk(tx.shop) && tx.tick == 0 && tx.row == None && tx.record == None && tx.held == []
    requires Check(tx.shop, req) == Ready(plan)
    requires OracleOk(o) && Observes(o, tx.shop, tx.world, plan)
    requires o.found(1, Txn(req, Finding, None, None)) == FindIn(tx.world, 1, Txn(req, Finding, None, None))
    modifies tx
    ensures r == Ending(RunUnder(tx.shop.maxAttempts, o, plan, 0,
                                 Txn(req, if req.key.Some? then WantKey else WantDay, None, None)))
    ensures tx.held <= LocksTaken(tx.shop, tx.world, req)
            && (r.Answer? ==> tx.held == LocksTaken(tx.shop, tx.world, req))
  {
    if req.key.Some? {
      KeySteps(tx.shop.maxAttempts, o, plan, req);
      var locked := tx.LockIdempotencyKey(req.dealership, req.key.value);
      if !locked {
        return Failure;
      }
      var stored := FindStored(tx, req, req.key.value);
      if stored.Failed? {
        return Failure;
      }
      if stored.value.Some? {
        return Answer(stored.value.value, None, None);
      }
    }
    r := BookOnDay(tx, req, plan, o);
  }

  lemma OracleObserves(shop: Shop, w: World, plan: Plan)
    ensures var o := OracleOf(shop, w, plan);
            OracleOk(o) && Observes(o, shop, w, plan)
  {
  }

  lemma FoundIsFind(shop: Shop, w: World, plan: Plan, k: nat, t: Txn)
    ensures OracleOf(shop, w, plan).found(k, t) == FindIn(w, k, t)
  {
  }

  /** The booking transaction, line by line, does exactly what the statement machine says in the same
      world: same result, same row, same record. It answers only with all its locks, taken in order. */
  method Book(shop: Shop, world: World, req: Request) returns (r: BookResult, locks: seq<LockId>)
    requires ShopOk(shop)
    ensures r == BookUnder(shop, world, req)
    ensures Check(shop, req).Invalid? ==> locks == []
    ensures Check(shop, req).Ready? ==> locks <= LocksTaken(shop, world, req)
    ensures Check(shop, req).Ready? && r.Answer? ==>
              locks == if req.key.None? then [DayLockOf(shop, req)]
                       else if LiveRecord(world.tables(1).records, req).Some? then [KeyLockOf(shop, req)]
                       else [KeyLockOf(shop, req), DayLockOf(shop, req)]
  {
    match Check(shop, req)
    case Invalid(e) =>
      return Answer(Rejected(e), None, None), [];
    case Ready(plan) =>
      OracleObserves(shop, world, plan);
      FoundIsFind(shop, world, plan, 1, Txn(req, Finding, None, None));
      var tx := new BookingTx(shop, world);
      r := BookInTx(tx, req, plan, OracleOf(shop, world, plan));
      locks := tx.held;
  }

  // ----- Availability -----

  /** Scheduler.Availability after its lookups: nothing on a closed day, else the walk over the
      window with the day's schedule for the vehicle. */
  function SlotsOn(shop: Shop, rows: seq<Row>, d: Id, service: Id, vehicle: Id, date: int, now: Instant,
                   g: int): seq<Instant>
    requires d in shop.dealerships && service in shop.services
  {
    var dl := shop.dealerships[d];
    match WindowOf(dl, date)
    case None => []
    case Some(w) =>
      Slots(w, shop.services[service], DayScheduleOf(shop, rows, ScheduleQuery(d, Bounds(dl, date), Some(vehicle))),
            now, g)
  }

  datatype Listing = Listed(slots: seq<Instant>) | NotFound | ReadFailed

  /** Availability: the schedule is read on open days only, and fault says that this read fails. */
  method SlotsFor(shop: Shop, rows: seq<Row>, fault: bool, d: Id, service: Id, vehicle: Id, date: int, now: Instant,
                  granularity: int) returns (r: Listing)
    requires ShopOk(shop)
    ensures r.NotFound? <==> d !in shop.dealerships || service !in shop.services
                             || vehicle !in shop.vehicles || shop.vehicles[vehicle].dealership != d
    ensures r.ReadFailed? <==> !r.NotFound? && (WindowOf(shop.dealerships[d], date).Some? && fault)
    ensures r.Listed? ==> r.slots == SlotsOn(shop, rows, d, service, vehicle, date, now, granularity)
  {
    if d !in shop.dealerships {
      return NotFound;
    }
    if service !in shop.services {
      return NotFound;
    }
    if vehicle !in shop.vehicles || shop.vehicles[vehicle].dealership != d {
      return NotFound;
    }
    var window := WindowOf(shop.dealerships[d], date);
    if window.None? {
      return Listed([]);
    }
    if fault {
      return ReadFailed;
    }
    var schedule := LoadDay(shop, rows, ScheduleQuery(d, Bounds(shop.dealerships[d], date), Some(vehicle)));
    var slots := AvailableSlots(window.value, shop.services[service], schedule, now, granularity);
    r := Listed(slots);
  }
}
