/** The retry loop of assignAndInsert against any interference between its statements
    (scheduler.go assignAndInsert). */
module Retry {
  import opened Policy
  import opened Assignment
  import opened Schema
  import opened Booking
  import opened Protocol

  /** Everything a transaction does not control, statement by statement: the selection's verdict and
      the number of qualified pairs on the rows it sees, whether an insert breaks a foreign key or
      loses the race, whether the statement fails, the id a new row gets, and the live record found. */
  datatype Oracle = Oracle(
    verdict: nat -> Verdict, qualified: nat -> nat, broken: (nat, Row) -> bool, loses: (nat, Row) -> bool,
    fault: nat -> bool, id: nat -> Id, found: (nat, Txn) -> Txn)

  predicate Concluded(p: Phase) { p.Committing? || !Active(p) }

  /** The insert statement: a broken foreign key aborts, a conflict or a deadlock loses the race. */
  function AfterTry(o: Oracle, plan: Plan, tick: nat, t: Txn): Txn
    requires t.phase.Inserting?
  {
    var row := NewRow(t.req, plan, t.phase.technician, t.phase.bay, o.id(tick));
    if o.broken(tick, row) then Txn(t.req, Aborted, None, None)
    else if o.loses(tick, row) then AfterLoss(t)
    else AfterInsert(t, row)
  }

  /** One statement; a lock is granted when it is asked for. */
  function Execute(maxAttempts: nat, o: Oracle, plan: Plan, tick: nat, t: Txn): Txn
    requires !Concluded(t.phase)
  {
    if o.fault(tick) then Txn(t.req, Aborted, None, None)
    else
      match t.phase
      case WantKey => t.(phase := Finding)
      case Finding => o.found(tick, t)
      case WantDay => t.(phase := Reading(0, maxAttempts))
      case Reading(a, b) => AfterVerdict(t, o.verdict(tick), BudgetFor(a, b, o.qualified(tick)))
      case Inserting(_, _, _, _) => AfterTry(o, plan, tick, t)
      case Rechecking => AfterLastVerdict(t, o.verdict(tick))
      case Saving(_) => AfterSave(t)
  }

  function Stage(p: Phase): nat {
    match p
    case WantKey => 7
    case Finding => 6
    case WantDay => 5
    case Reading(a, _) => if a == 0 then 4 else 3
    case Inserting(_, _, _, _) => 3
    case Rechecking => 2
    case Saving(_) => 1
    case _ => 0
  }

  function Steps(p: Phase): nat {
    match p
    case Reading(a, b) => 2 * Max(b - a, 0) + 1
    case Inserting(a, b, _, _) => 2 * Max(b - a, 0)
    case _ => 0
  }

  /** Looking a key up leads on to the day lock, to a replayed outcome or to a rollback. */
  ghost predicate OracleOk(o: Oracle) {
    forall k, t :: o.found(k, t).phase.WantDay? || Concluded(o.found(k, t).phase)
  }

  /** The transaction up to the point where it commits or has been rolled back. */
  ghost function RunUnder(maxAttempts: nat, o: Oracle, plan: Plan, tick: nat, t: Txn): Txn
    requires OracleOk(o)
    decreases Stage(t.phase), Steps(t.phase)
  {
    if Concluded(t.phase) then t
    else RunUnder(maxAttempts, o, plan, tick + 1, Execute(maxAttempts, o, plan, tick, t))
  }

  // ----- Runs of lost races -----

  /** The attempt that reads at statement k selects a pair and then loses the race for it. */
  predicate LostAt(o: Oracle, req: Request, plan: Plan, k: nat) {
    && !o.fault(k) && o.verdict(k).Assigned? && !o.fault(k + 1)
    && var row := NewRow(req, plan, o.verdict(k).technician, o.verdict(k).bay, o.id(k + 1));
       !o.broken(k + 1, row) && o.loses(k + 1, row)
  }

  /** n attempts in a row, each reading two statements after the one before, are lost. */
  ghost predicate AllLost(o: Oracle, req: Request, plan: Plan, tick: nat, n: nat)
    decreases n
  {
    n > 0 ==> LostAt(o, req, plan, tick) && AllLost(o, req, plan, tick + 2, n - 1)
  }

  lemma {:induction false} AllLostAt(o: Oracle, req: Request, plan: Plan, tick: nat, n: nat, k: nat)
    requires AllLost(o, req, plan, tick, n) && k < n
    ensures LostAt(o, req, plan, tick + 2 * k)
    decreases n
  {
    if k == 0 {
    } else {
      AllLostAt(o, req, plan, tick + 2, n - 1, k - 1);
    }
  }

  /** The phase in which the loop enters its attempt number a. */
  function LoopPhase(a: nat, budget: nat): Phase {
    if a < budget then Reading(a, budget) else Rechecking
  }

  lemma LostOnce(max: nat, o: Oracle, plan: Plan, tick: nat, t: Txn, a: nat, budget: nat)
    requires OracleOk(o) && a < budget && LostAt(o, t.req, plan, tick)
    requires a == 0 ==> budget == BudgetFor(0, budget, o.qualified(tick))
    ensures RunUnder(max, o, plan, tick, t.(phase := LoopPhase(a, budget)))
            == RunUnder(max, o, plan, tick + 2, t.(phase := LoopPhase(a + 1, budget)))
  {
    var now := t.(phase := Reading(a, budget));
    var chosen := t.(phase := Inserting(a, budget, o.verdict(tick).technician, o.verdict(tick).bay));
    assert Execute(max, o, plan, tick, now) == chosen;
    assert Execute(max, o, plan, tick + 1, chosen) == t.(phase := LoopPhase(a + 1, budget));
  }

  /** What does not change over one lost attempt does not change over n in a row. */
  lemma {:induction false} SkipLosses(run: (nat, nat) -> Txn, o: Oracle, req: Request, plan: Plan, tick: nat, a: nat,
                                      budget: nat, n: nat)
    requires a + n <= budget && AllLost(o, req, plan, tick, n)
    requires forall k: nat, b: nat {:trigger run(k, b)} ::
               a <= b < budget && LostAt(o, req, plan, k) && (b == 0 ==> k == tick) ==> run(k, b) == run(k + 2, b + 1)
    ensures run(tick, a) == run(tick + 2 * n, a + n)
    decreases n
  {
    if n == 0 {
    } else {
      SkipLosses(run, o, req, plan, tick + 2, a + 1, budget, n - 1);
      assert run(tick, a) == run(tick + 2, a + 1);
      assert tick + 2 + 2 * (n - 1) == tick + 2 * n && a + 1 + (n - 1) == a + n;
    }
  }

  /** Losing n times in a row brings the loop n attempts further. */
  lemma LostAttempts(max: nat, o: Oracle, plan: Plan, tick: nat, t: Txn, budget: nat, n: nat)
    requires OracleOk(o) && n <= budget && AllLost(o, t.req, plan, tick, n)
             && budget == BudgetFor(0, budget, o.qualified(tick))
    ensures RunUnder(max, o, plan, tick, t.(phase := LoopPhase(0, budget)))
            == RunUnder(max, o, plan, tick + 2 * n, t.(phase := LoopPhase(n, budget)))
  {
    var run := (k: nat, b: nat) =>
      if OracleOk(o) then RunUnder(max, o, plan, k, t.(phase := LoopPhase(b, budget))) else t;
    forall k: nat, b: nat | b < budget && LostAt(o, t.req, plan, k) && (b == 0 ==> k == tick)
      ensures run(k, b) == run(k + 2, b + 1)
    {
      LostOnce(max, o, plan, k, t, b, budget);
    }
    SkipLosses(run, o, t.req, plan, tick, 0, budget, n);
    assert run(tick, 0) == run(tick + 2 * n, n);
  }

  /** Fixing the budget before the first read instead of during it makes no difference. */
  lemma BudgetSettles(max: nat, o: Oracle, plan: Plan, tick: nat, t: Txn)
    requires OracleOk(o)
    ensures var b := BudgetFor(0, max, o.qualified(tick));
            RunUnder(max, o, plan, tick, t.(phase := Reading(0, max)))
              == RunUnder(max, o, plan, tick, t.(phase := Reading(0, b)))
  {
    var b := BudgetFor(0, max, o.qualified(tick));
    assert Execute(max, o, plan, tick, t.(phase := Reading(0, max)))
           == Execute(max, o, plan, tick, t.(phase := Reading(0, b)));
  }

  // ----- The outcome of the loop -----

  lemma {:induction false} LeadingLosses(o: Oracle, req: Request, plan: Plan, tick: nat, budget: nat) returns (n: nat)
    ensures n <= budget && AllLost(o, req, plan, tick, n) && (n < budget ==> !LostAt(o, req, plan, tick + 2 * n))
    decreases budget
  {
    if budget == 0 || !LostAt(o, req, plan, tick) {
      n := 0;
    } else {
      var rest := LeadingLosses(o, req, plan, tick + 2, budget - 1);
      n := rest + 1;
    }
  }

  /** What the transaction ends as once the loop has come to an outcome of its own. */
  ghost predicate EndsWith(t: Txn, outcome: Outcome, final: Txn) {
    || final == Txn(t.req, Aborted, None, None)
    || final == Txn(t.req, Committing(outcome, false), t.row,
                    if t.req.key.Some? then Some(RecordOf(t.req, outcome)) else None)
  }

  lemma ConcludeEnds(max: nat, o: Oracle, plan: Plan, tick: nat, t: Txn, outcome: Outcome)
    requires OracleOk(o) && t.record == None
    ensures EndsWith(t, outcome, RunUnder(max, o, plan, tick, Conclude(t, outcome)))
  {
    var c := Conclude(t, outcome);
    if c.phase.Saving? {
      assert Concluded(Execute(max, o, plan, tick, c).phase);
    }
  }

  /** The row of the pair selected at statement k, which the database accepts at the statement after it. */
  ghost predicate AcceptedAt(o: Oracle, req: Request, plan: Plan, k: nat, row: Row) {
    && o.verdict(k).Assigned? && row == NewRow(req, plan, o.verdict(k).technician, o.verdict(k).bay, o.id(k + 1))
    && !o.broken(k + 1, row) && !o.loses(k + 1, row)
  }

  /** An attempt that is not lost ends the loop: with its own verdict, with its own row, or in a rollback. */
  lemma DecidedAttempt(max: nat, o: Oracle, plan: Plan, k: nat, t: Txn)
    requires OracleOk(o) && t.phase.Reading? && t.row == None && t.record == None && !LostAt(o, t.req, plan, k)
    ensures var final := RunUnder(max, o, plan, k, t);
            match o.verdict(k)
            case Refused(e) => EndsWith(t, Rejected(e), final)
            case Assigned(technician, bay) =>
              var row := NewRow(t.req, plan, technician, bay, o.id(k + 1));
              EndsWith(t.(row := Some(row)), Booked(row), final)
              && (final.phase.Aborted? || AcceptedAt(o, t.req, plan, k, row))
  {
    var n := Execute(max, o, plan, k, t);
    if !o.fault(k) {
      match o.verdict(k)
      case Refused(e) => ConcludeEnds(max, o, plan, k + 1, t, Rejected(e));
      case Assigned(technician, bay) =>
        var row := NewRow(t.req, plan, technician, bay, o.id(k + 1));
        var m := Execute(max, o, plan, k + 1, n);
        assert RunUnder(max, o, plan, k, t) == RunUnder(max, o, plan, k + 2, m);
        if !o.fault(k + 1) && !o.broken(k + 1, row) {
          assert m == Conclude(n.(row := Some(row)), Booked(row));
          ConcludeEnds(max, o, plan, k + 2, n.(row := Some(row)), Booked(row));
        }
    }
  }

  lemma LastLook(max: nat, o: Oracle, plan: Plan, k: nat, t: Txn)
    requires OracleOk(o) && t.phase.Rechecking? && t.row == None && t.record == None
    ensures var final := RunUnder(max, o, plan, k, t);
            if o.fault(k) then final == Txn(t.req, Aborted, None, None)
            else match o.verdict(k)
                 case Refused(e) => EndsWith(t, Rejected(e), final)
                 case Assigned(_, _) => final == t.(phase := Committing(CONTENDED, false))
  {
    if !o.fault(k) && o.verdict(k).Refused? {
      ConcludeEnds(max, o, plan, k + 1, t, Rejected(o.verdict(k).error));
    }
  }

  predicate Contends(outcome: Outcome) {
    outcome.Rejected? && outcome.error.code == Contention
  }

  /** The end of a loop that started at the given statement with the given budget: after n lost attempts
      the next schedule read, statement tick + 2n, gives the verdict. */
  ghost predicate HonestEnd(o: Oracle, plan: Plan, tick: nat, budget: nat, t: Txn, final: Txn) {
    match final.phase
    case Aborted => final == Txn(t.req, Aborted, None, None)
    case Committing(outcome, replayed) =>
      !replayed &&
      (match outcome
       case Booked(row) =>
         && EndsWith(t.(row := Some(row)), outcome, final)
         && exists n: nat :: n < budget && AllLost(o, t.req, plan, tick, n)
                             && AcceptedAt(o, t.req, plan, tick + 2 * n, row)
       case Rejected(e) =>
         if e.code == Contention then final == Txn(t.req, Committing(CONTENDED, false), None, None)
         else
           && EndsWith(t, outcome, final)
           && exists n: nat :: n <= budget && AllLost(o, t.req, plan, tick, n) && o.verdict(tick + 2 * n) == Refused(e))
    case _ => false
  }

  lemma EndAfterLosses(max: nat, o: Oracle, plan: Plan, tick: nat, t: Txn, budget: nat, n: nat, final: Txn)
    requires OracleOk(o) && t.row == None && t.record == None && n <= budget
    requires AllLost(o, t.req, plan, tick, n) && (n < budget ==> !LostAt(o, t.req, plan, tick + 2 * n))
    requires forall k: nat :: o.verdict(k).Refused? ==> o.verdict(k).error.code != Contention
    requires final == RunUnder(max, o, plan, tick + 2 * n, t.(phase := LoopPhase(n, budget)))
    ensures && HonestEnd(o, plan, tick, budget, t, final)
            && (final.phase == Committing(CONTENDED, false) <==>
                n == budget && !o.fault(tick + 2 * budget) && o.verdict(tick + 2 * budget).Assigned?)
            && (n == budget && o.fault(tick + 2 * budget) ==> final.phase.Aborted?)
  {
    var k, entered := tick + 2 * n, t.(phase := LoopPhase(n, budget));
    if n < budget {
      DecidedAttempt(max, o, plan, k, entered);
    } else {
      LastLook(max, o, plan, k, entered);
    }
  }

  /** The loop gets through its leading losses. */
  lemma LoopReaches(max: nat, o: Oracle, plan: Plan, tick: nat, t: Txn, budget: nat) returns (n: nat)
    requires OracleOk(o) && t.phase == Reading(0, max) && budget == BudgetFor(0, max, o.qualified(tick))
    ensures n <= budget && AllLost(o, t.req, plan, tick, n) && (n < budget ==> !LostAt(o, t.req, plan, tick + 2 * n))
    ensures RunUnder(max, o, plan, tick, t) == RunUnder(max, o, plan, tick + 2 * n, t.(phase := LoopPhase(n, budget)))
  {
    assert t.(phase := Reading(0, max)) == t;
    BudgetSettles(max, o, plan, tick, t);
    n := LeadingLosses(o, t.req, plan, tick, budget);
    LostAttempts(max, o, plan, tick, t, budget, n);
  }

  /** Whatever happens between the statements: after n lost attempts the next schedule read decides. A
      refusal is the verdict of that read and never the database's race error; a row is written exactly
      for a booking, of the pair that read selected; and CONTENTION is reported, and left unrecorded,
      exactly when every budgeted insert lost and the final fresh selection would still succeed. */
  lemma LoopIsHonest(max: nat, o: Oracle, plan: Plan, tick: nat, t: Txn)
    requires OracleOk(o) && t.phase == Reading(0, max) && max >= 1 && t.row == None && t.record == None
    requires forall k: nat :: o.verdict(k).Refused? ==> o.verdict(k).error.code != Contention
    ensures var budget := BudgetFor(0, max, o.qualified(tick));
            var final := RunUnder(max, o, plan, tick, t);
            && HonestEnd(o, plan, tick, budget, t, final)
            && (final.phase == Committing(CONTENDED, false) <==>
                AllLost(o, t.req, plan, tick, budget) && !o.fault(tick + 2 * budget)
                  && o.verdict(tick + 2 * budget).Assigned?)
            && (AllLost(o, t.req, plan, tick, budget) && o.fault(tick + 2 * budget) ==> final.phase.Aborted?)
  {
    var budget := BudgetFor(0, max, o.qualified(tick));
    var n := LoopReaches(max, o, plan, tick, t, budget);
    EndAfterLosses(max, o, plan, tick, t, budget, n, RunUnder(max, o, plan, tick, t));
    if n < budget && AllLost(o, t.req, plan, tick, budget) {
      AllLostAt(o, t.req, plan, tick, budget, n);
    }
  }
}
