/** Next to others the service's Book takes the steps of the concurrent protocol, and against any
    interference its answer is honest. */
module Conformance {
  import opened Policy
  import opened Assignment
  import opened Schema
  import opened Booking
  import opened Protocol
  import opened Safety
  import opened Races
  import opened Retry
  import opened Transaction
  import opened Service

  // ----- Against any interference -----

  /** The statement that reads the day for the first time, when no lock or lookup has failed before it. */
  function FirstRead(req: Request): nat {
    if req.key.Some? then 3 else 1
  }

  /** An answer decided in the transaction itself, whose first schedule read is statement k. After n
      beaten attempts the read at statement k + 2n decides: the booked row is the request with the pair
      selected there, accepted by the database at the next statement, and nothing else is written; a
      refusal is that read's verdict and never the database's race error. Contention writes nothing, and
      is answered exactly when every budgeted insert was beaten while the final selection still succeeds. */
  ghost predicate HonestAnswer(o: Oracle, max: nat, req: Request, plan: Plan, k: nat, outcome: Outcome,
                               row: Option<Row>, record: Option<Record>) {
    var budget := BudgetFor(0, max, o.qualified(k));
    if Contends(outcome) then
      outcome == CONTENDED && row == None && record == None && AllLost(o, req, plan, k, budget)
        && o.verdict(k + 2 * budget).Assigned?
    else
      && !(AllLost(o, req, plan, k, budget) && o.verdict(k + 2 * budget).Assigned?)
      && record == (if req.key.Some? then Some(RecordOf(req, outcome)) else None)
      && match outcome
         case Booked(r) =>
           row == Some(r) && exists n: nat :: n < budget && AllLost(o, req, plan, k, n)
                                              && AcceptedAt(o, req, plan, k + 2 * n, r)
         case Rejected(e) =>
           row == None && exists n: nat :: n <= budget && AllLost(o, req, plan, k, n)
                                           && o.verdict(k + 2 * n) == Refused(e)
  }

  lemma VerdictNeverContends(shop: Shop, w: World, plan: Plan, o: Oracle)
    requires Observes(o, shop, w, plan)
    ensures forall n: nat :: o.verdict(n).Refused? ==> o.verdict(n).error.code != Contention
  {
    forall n: nat ensures o.verdict(n).Refused? ==> o.verdict(n).error.code != Contention {
      assert o.verdict(n) == Select(DayAt(shop, w, plan, n), plan.st, plan.iv);
    }
  }

  lemma HonestLoop(max: nat, req: Request, plan: Plan, o: Oracle, k: nat)
    requires max >= 1 && OracleOk(o) && forall n: nat :: o.verdict(n).Refused? ==> o.verdict(n).error.code != Contention
    ensures match Ending(RunUnder(max, o, plan, k, Txn(req, Reading(0, max), None, None)))
            case Failure => true
            case Answer(outcome, row, record) => HonestAnswer(o, max, req, plan, k, outcome, row, record)
  {
    LoopIsHonest(max, o, plan, k, Txn(req, Reading(0, max), None, None));
  }

  lemma HonestOnDay(max: nat, req: Request, plan: Plan, o: Oracle, k: nat)
    requires max >= 1 && OracleOk(o) && forall n: nat :: o.verdict(n).Refused? ==> o.verdict(n).error.code != Contention
    ensures match Ending(RunUnder(max, o, plan, k, Txn(req, WantDay, None, None)))
            case Failure => true
            case Answer(outcome, row, record) => HonestAnswer(o, max, req, plan, k + 1, outcome, row, record)
  {
    var first := Txn(req, WantDay, None, None);
    assert RunUnder(max, o, plan, k, first) == RunUnder(max, o, plan, k + 1, Execute(max, o, plan, k, first));
    HonestLoop(max, req, plan, o, k + 1);
  }

  lemma FoundHonest(w: World, req: Request)
    ensures var found, stored := FindIn(w, 1, Txn(req, Finding, None, None)), LiveRecord(w.tables(1).records, req);
            if stored.None? then found == Txn(req, WantDay, None, None)
            else match Ending(found)
                 case Failure => Concluded(found.phase)
                 case Answer(outcome, row, record) =>
                   row == None && record == None && Replay(w.tables(2).rows, stored.value, FingerprintOf(req))
                     == Some(outcome)
  {
  }

  lemma HonestReady(max: nat, w: World, req: Request, plan: Plan, o: Oracle)
    requires max >= 1 && OracleOk(o) && forall n: nat :: o.verdict(n).Refused? ==> o.verdict(n).error.code != Contention
    requires o.found(1, Txn(req, Finding, None, None)) == FindIn(w, 1, Txn(req, Finding, None, None))
    ensures match Ending(RunUnder(max, o, plan, 0, Txn(req, if req.key.Some? then WantKey else WantDay, None, None)))
            case Failure => true
            case Answer(outcome, row, record) =>
              var stored := LiveRecord(w.tables(1).records, req);
              if stored.Some? then
                && row == None && record == None
                && Replay(w.tables(2).rows, stored.value, FingerprintOf(req)) == Some(outcome)
              else HonestAnswer(o, max, req, plan, FirstRead(req), outcome, row, record)
  {
    if req.key.None? {
      HonestOnDay(max, req, plan, o, 0);
    } else {
      KeySteps(max, o, plan, req);
      FoundHonest(w, req);
      HonestOnDay(max, req, plan, o, 2);
    }
  }

  /** What Book answers is what any oracle that observes its world leads to. */
  lemma BookByOracle(shop: Shop, w: World, req: Request, answer: BookResult) returns (o: Oracle)
    requires Check(shop, req).Ready? && answer == BookUnder(shop, w, req)
    ensures OracleOk(o) && Observes(o, shop, w, Check(shop, req).plan)
    ensures o.found(1, Txn(req, Finding, None, None)) == FindIn(w, 1, Txn(req, Finding, None, None))
    ensures answer == Ending(RunUnder(shop.maxAttempts, o, Check(shop, req).plan, 0,
                                      Txn(req, if req.key.Some? then WantKey else WantDay, None, None)))
  {
    var plan := Check(shop, req).plan;
    OracleObserves(shop, w, plan);
    FoundIsFind(shop, w, plan, 1, Txn(req, Finding, None, None));
    o := OracleOf(shop, w, plan);
  }

  /** Whatever else happens to the database while Book runs: a request with a live record gets that
      record's outcome and writes nothing; any other answer is honest about what its statements saw. */
  lemma BookIsHonest(shop: Shop, w: World, req: Request, answer: BookResult) returns (o: Oracle)
    requires ShopOk(shop) && Check(shop, req).Ready? && answer == BookUnder(shop, w, req)
    ensures Observes(o, shop, w, Check(shop, req).plan)
    ensures match answer
            case Failure => true
            case Answer(outcome, row, record) =>
              var plan, stored := Check(shop, req).plan, LiveRecord(w.tables(1).records, req);
              if stored.Some? then
                && row == None && record == None
                && Replay(w.tables(2).rows, stored.value, FingerprintOf(req)) == Some(outcome)
              else HonestAnswer(o, shop.maxAttempts, req, plan, FirstRead(req), outcome, row, record)
  {
    var plan := Check(shop, req).plan;
    o := BookByOracle(shop, w, req, answer);
    VerdictNeverContends(shop, w, plan, o);
    HonestReady(shop.maxAttempts, w, req, plan, o);
  }

  /** Contention means that all budgeted attempts were lost while the last look still succeeds. */
  lemma ContentionIsAllLost(shop: Shop, w: World, req: Request, answer: BookResult) returns (o: Oracle)
    requires ShopOk(shop) && Check(shop, req).Ready? && LiveRecord(w.tables(1).records, req).None?
    requires answer == BookUnder(shop, w, req) && answer.Answer? && Contends(answer.outcome)
    ensures Observes(o, shop, w, Check(shop, req).plan)
    ensures var plan, k := Check(shop, req).plan, FirstRead(req);
            var budget := BudgetFor(0, shop.maxAttempts, o.qualified(k));
            AllLost(o, req, plan, k, budget) && o.verdict(k + 2 * budget).Assigned?
  {
    o := BookIsHonest(shop, w, req, answer);
  }

  /** The other way round: when all budgeted attempts are lost and the last look succeeds, the answer is
      CONTENTION and nothing is written. */
  lemma AllLostContends(max: nat, req: Request, plan: Plan, o: Oracle, k: nat)
    requires max >= 1 && OracleOk(o) && !o.fault(k)
    requires forall n: nat :: o.verdict(n).Refused? ==> o.verdict(n).error.code != Contention
    requires var budget := BudgetFor(0, max, o.qualified(k + 1));
             AllLost(o, req, plan, k + 1, budget) && !o.fault(k + 1 + 2 * budget)
               && o.verdict(k + 1 + 2 * budget).Assigned?
    ensures Ending(RunUnder(max, o, plan, k, Txn(req, WantDay, None, None))) == Answer(CONTENDED, None, None)
  {
    var first := Txn(req, WantDay, None, None);
    assert RunUnder(max, o, plan, k, first) == RunUnder(max, o, plan, k + 1, Execute(max, o, plan, k, first));
    LoopIsHonest(max, o, plan, k + 1, Txn(req, Reading(0, max), None, None));
  }

  lemma ReadyContends(max: nat, w: World, req: Request, plan: Plan, o: Oracle)
    requires max >= 1 && OracleOk(o) && forall n: nat :: o.verdict(n).Refused? ==> o.verdict(n).error.code != Contention
    requires o.fault == w.fault
    requires o.found(1, Txn(req, Finding, None, None)) == FindIn(w, 1, Txn(req, Finding, None, None))
    requires LiveRecord(w.tables(1).records, req).None? && forall k: nat :: !w.fault(k)
    requires var budget := BudgetFor(0, max, o.qualified(FirstRead(req)));
             AllLost(o, req, plan, FirstRead(req), budget) && o.verdict(FirstRead(req) + 2 * budget).Assigned?
    ensures Ending(RunUnder(max, o, plan, 0, Txn(req, if req.key.Some? then WantKey else WantDay, None, None)))
            == Answer(CONTENDED, None, None)
  {
    if req.key.None? {
      AllLostContends(max, req, plan, o, 0);
    } else {
      KeySteps(max, o, plan, req);
      FoundHonest(w, req);
      AllLostContends(max, req, plan, o, 2);
    }
  }

  lemma AcceptedRowFacts(shop: Shop, w: World, req: Request, o: Oracle, k: nat, r: Row)
    requires ShopOk(shop) && Check(shop, req).Ready? && Observes(o, shop, w, Check(shop, req).plan)
    requires AcceptedAt(o, req, Check(shop, req).plan, k, r)
    ensures RowOk(shop, r) && Violation(w.tables(k + 1).rows, r).None? && InHours(shop, r)
    ensures r.dealership == req.dealership && r.vehicle == req.vehicle && r.service == req.service
            && r.status == Confirmed
    ensures r.customer == shop.vehicles[req.vehicle].customer
    ensures r.iv.start == req.start && r.iv.Duration() == shop.services[req.service].duration
  {
    CheckedRequest(shop, req);
    assert Beaten(w, k + 1, r) == o.loses(k + 1, r);
    NewRowInHours(shop, r, req);
  }

  /** Whatever happens meanwhile, a fresh confirmation is for exactly what was asked: the vehicle for its
      owner, the service for its full duration from the requested start and inside opening hours, on a
      qualified technician and bay of the dealership. It was inserted after n beaten attempts, and
      conflicted with nothing that was committed then. */
  lemma BookedAsRequested(shop: Shop, w: World, req: Request, answer: BookResult) returns (o: Oracle, n: nat)
    requires ShopOk(shop) && Check(shop, req).Ready? && LiveRecord(w.tables(1).records, req).None?
    requires answer == BookUnder(shop, w, req) && answer.Answer? && answer.outcome.Booked?
    ensures var r := answer.outcome.row;
            && answer.row == Some(r)
            && Observes(o, shop, w, Check(shop, req).plan) && AllLost(o, req, Check(shop, req).plan, FirstRead(req), n)
            && Violation(w.tables(FirstRead(req) + 2 * n + 1).rows, r).None? && r.id == w.id(FirstRead(req) + 2 * n + 1)
            && QualifiedAndLocal(shop, r) && InHours(shop, r)
            && r.dealership == req.dealership && r.vehicle == req.vehicle && r.service == req.service
               && r.status == Confirmed
            && r.customer == shop.vehicles[req.vehicle].customer
            && r.iv.start == req.start && r.iv.Duration() == shop.services[req.service].duration
  {
    var plan, r := Check(shop, req).plan, answer.outcome.row;
    o := BookIsHonest(shop, w, req, answer);
    n :| AllLost(o, req, plan, FirstRead(req), n) && AcceptedAt(o, req, plan, FirstRead(req) + 2 * n, r);
    AcceptedRowFacts(shop, w, req, o, FirstRead(req) + 2 * n, r);
  }

  // ----- The concurrent protocol runs the same program -----

  /** Statement k of the world shows what the transaction's action meets in the shared state. */
  ghost predicate Mirrors(shop: Shop, s: State, t: Txn, action: Action, w: World, k: nat)
  {
    && !w.fault(k) && w.tables(k) == s.db
    && (action.Find? && LiveRecord(s.db.records, t.req).Some? ==> !w.fault(k + 1) && w.tables(k + 1) == s.db)
    && (action.Insert? ==> w.id(k) == action.id && !w.deadlock(k))
    && (action.Lose? && Fits(shop, t, Lose) ==> Beaten(w, k, RowFor(shop, t, w.id(k))))
  }

  lemma InsertAgrees(max: nat, plan: Plan, k: nat, t: Txn, o: Oracle, row: Row)
    requires t.phase.Inserting? && row == NewRow(t.req, plan, t.phase.technician, t.phase.bay, o.id(k))
    requires !o.fault(k) && !o.broken(k, row)
    ensures Execute(max, o, plan, k, t) == if o.loses(k, row) then AfterLoss(t) else AfterInsert(t, row)
  {
  }

  lemma LookAgrees(shop: Shop, s: State, i: nat, action: Action, w: World, k: nat, plan: Plan, o: Oracle)
    requires i < |s.txns| && (action.Read? || action.Recheck? || action.Save?) && CanAct(shop, s, i, action)
    requires Check(shop, s.txns[i].req) == Ready(plan) && Mirrors(shop, s, s.txns[i], action, w, k)
             && Observes(o, shop, w, plan)
    ensures !Concluded(s.txns[i].phase)
    ensures Act(shop, s, i, action).txns[i] == Execute(shop.maxAttempts, o, plan, k, s.txns[i])
  {
    assert o.verdict(k) == Select(DayAt(shop, w, plan, k), plan.st, plan.iv);
  }

  lemma GrantAgrees(shop: Shop, s: State, i: nat, action: Action, w: World, k: nat, plan: Plan, o: Oracle)
    requires i < |s.txns| && (action.LockKey? || action.LockDay? || action.Find?) && CanAct(shop, s, i, action)
    requires Mirrors(shop, s, s.txns[i], action, w, k) && o.fault == w.fault
    requires s.txns[i].phase.Finding? ==>
               o.found(k, s.txns[i]) == FindIn(w, k, s.txns[i]) && s.txns[i].row == None && s.txns[i].record == None
    ensures !Concluded(s.txns[i].phase)
    ensures Act(shop, s, i, action).txns[i] == Execute(shop.maxAttempts, o, plan, k, s.txns[i])
  {
  }

  lemma TryAgrees(shop: Shop, s: State, i: nat, action: Action, w: World, k: nat, plan: Plan, o: Oracle)
    requires i < |s.txns| && (action.Insert? || action.Lose?) && CanAct(shop, s, i, action)
    requires Check(shop, s.txns[i].req) == Ready(plan) && Mirrors(shop, s, s.txns[i], action, w, k)
             && Observes(o, shop, w, plan)
    ensures !Concluded(s.txns[i].phase)
    ensures Act(shop, s, i, action).txns[i] == Execute(shop.maxAttempts, o, plan, k, s.txns[i])
  {
    var t := s.txns[i];
    var row := RowFor(shop, t, w.id(k));
    assert Beaten(w, k, row) <==> action.Lose?;
    InsertAgrees(shop.maxAttempts, plan, k, t, o, row);
  }

  /** Each statement that a transaction can execute in the concurrent protocol is the step that the
      service's Book makes in a world showing the same tables. */
  lemma StatementsAgree(shop: Shop, s: State, i: nat, action: Action, w: World, k: nat, o: Oracle)
    requires i < |s.txns| && CanAct(shop, s, i, action) && Check(shop, s.txns[i].req).Ready?
    requires !action.Start? && !action.Commit? && !action.Abort?
    requires Mirrors(shop, s, s.txns[i], action, w, k)
    requires Observes(o, shop, w, Check(shop, s.txns[i].req).plan)
    requires s.txns[i].phase.Finding? ==>
               o.found(k, s.txns[i]) == FindIn(w, k, s.txns[i]) && s.txns[i].row == None && s.txns[i].record == None
    ensures !Concluded(s.txns[i].phase)
    ensures Act(shop, s, i, action).txns[i] == Execute(shop.maxAttempts, o, Check(shop, s.txns[i].req).plan, k,
                                                       s.txns[i])
  {
    var plan := Check(shop, s.txns[i].req).plan;
    if action.LockKey? || action.LockDay? || action.Find? {
      GrantAgrees(shop, s, i, action, w, k, plan, o);
    } else if action.Insert? || action.Lose? {
      TryAgrees(shop, s, i, action, w, k, plan, o);
    } else {
      LookAgrees(shop, s, i, action, w, k, plan, o);
    }
  }
}
