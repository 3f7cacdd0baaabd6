/** The service's Book when nobody else writes: what it answers on any tables, and that on good ones it is
    the indivisible booking (scheduler.go Book). */
module Alone {
  import opened Policy
  import opened Assignment
  import opened Schema
  import opened Booking
  import opened Safety
  import opened Tables
  import opened Races
  import opened Retry
  import opened Transaction
  import opened Service
  import opened Conformance

  /** A world in which nobody else writes and nothing fails. */
  function Quiet(db: Db, id: Id): World {
    World((k: nat) => db, (k: nat) => false, (k: nat) => false, (k: nat) => id)
  }

  /** The answer to a request whose selection on the tables has come out that way. */
  function Settle(rows: seq<Row>, req: Request, outcome: Outcome): BookResult {
    var record := if req.key.Some? then Some(RecordOf(req, outcome)) else None;
    match outcome
    case Rejected(_) => Answer(outcome, None, record)
    case Booked(row) =>
      if Violation(rows, row).Some? then Answer(CONTENDED, None, None) else Answer(outcome, Some(row), record)
  }

  /** What Book answers on tables that nobody else touches. */
  function AloneAnswer(shop: Shop, db: Db, req: Request, id: Id): BookResult {
    match Check(shop, req)
    case Invalid(e) => Answer(Rejected(e), None, None)
    case Ready(plan) =>
      match LiveRecord(db.records, req)
      case None => Settle(db.rows, req, Decide(shop, db.rows, req, plan, id))
      case Some(rec) =>
        match Replay(db.rows, rec, FingerprintOf(req))
        case None => Failure
        case Some(outcome) => Answer(outcome, None, None)
  }

  // ----- The loop on tables that do not change -----

  /** If every attempt is lost, so are any n in a row. */
  lemma {:induction false} SameViewLoses(o: Oracle, req: Request, plan: Plan, k: nat, n: nat)
    requires forall i: nat :: LostAt(o, req, plan, i)
    ensures AllLost(o, req, plan, k, n)
    decreases n
  {
    if n == 0 {
    } else {
      SameViewLoses(o, req, plan, k + 2, n - 1);
    }
  }

  /** If the first insert is accepted, the first round decides. */
  lemma FirstRoundDecides(o: Oracle, req: Request, plan: Plan, k: nat, max: nat, v: Verdict, id: Id)
    requires max >= 1 && !o.fault(k) && !o.fault(k + 1) && o.verdict(k) == v && o.id(k + 1) == id
    requires v.Assigned? ==>
               var row := NewRow(req, plan, v.technician, v.bay, id); !o.broken(k + 1, row) && !o.loses(k + 1, row)
    ensures var outcome, rounds := Decision(req, plan, v, id), RoundsFrom(o, req, plan, k, 0, max);
            && rounds.r == Decided(outcome, false)
            && rounds.row == if outcome.Booked? then Some(outcome.row) else None
  {
  }

  /** Every statement sees the same: the verdict v, the id, and whether the row of a selected pair loses. */
  ghost predicate Unchanging(o: Oracle, req: Request, plan: Plan, v: Verdict, id: Id, lost: bool) {
    && (forall k: nat :: o.verdict(k) == v && !o.fault(k) && o.id(k) == id)
    && (v.Assigned? ==>
          var row := NewRow(req, plan, v.technician, v.bay, id);
          forall k: nat :: !o.broken(k, row) && o.loses(k, row) == lost)
  }

  lemma UnchangingLosses(o: Oracle, req: Request, plan: Plan, v: Verdict, id: Id, lost: bool)
    requires Unchanging(o, req, plan, v, id, lost) && v.Assigned?
    ensures forall k: nat :: LostAt(o, req, plan, k) <==> lost
  {
    var row := NewRow(req, plan, v.technician, v.bay, id);
    forall k: nat ensures LostAt(o, req, plan, k) <==> lost {
      assert o.verdict(k) == v && !o.fault(k + 1) && o.id(k + 1) == id && o.loses(k + 1, row) == lost;
    }
  }

  /** From the day lock on: all attempts are lost, or the first round decides. */
  lemma EndOfDay(max: nat, o: Oracle, req: Request, plan: Plan, v: Verdict, id: Id, lost: bool, k: nat)
    requires max >= 1 && OracleOk(o) && Unchanging(o, req, plan, v, id, lost)
    requires v.Refused? ==> v.error.code != Contention
    ensures var outcome := Decision(req, plan, v, id);
            Ending(RunUnder(max, o, plan, k, Txn(req, WantDay, None, None))) ==
            if v.Assigned? && lost then Answer(CONTENDED, None, None)
            else Answer(outcome, if outcome.Booked? then Some(outcome.row) else None,
                        if req.key.Some? then Some(RecordOf(req, outcome)) else None)
  {
    if v.Assigned? && lost {
      assert o.verdict(k + 1 + 2 * BudgetFor(0, max, o.qualified(k + 1))) == v && !o.fault(k);
      UnchangingLosses(o, req, plan, v, id, lost);
      SameViewLoses(o, req, plan, k + 1, BudgetFor(0, max, o.qualified(k + 1)));
      AllLostContends(max, req, plan, o, k);
    } else {
      assert o.verdict(k + 1) == v && !o.fault(k + 1) && !o.fault(k + 2) && o.id(k + 2) == id && !o.fault(k);
      FirstRoundDecides(o, req, plan, k + 1, max, v, id);
      DaySteps(max, o, plan, req, k);
      var rounds := RoundsFrom(o, req, plan, k + 1, 0, max);
      assert !o.fault(rounds.next);
      SaveSteps(max, o, plan, req, rounds.next, rounds.row, rounds.r);
    }
  }

  lemma QuietIsUnchanging(shop: Shop, db: Db, req: Request, id: Id, plan: Plan, o: Oracle, v: Verdict)
    requires ShopOk(shop) && Check(shop, req) == Ready(plan) && Observes(o, shop, Quiet(db, id), plan)
    requires v == Select(DayScheduleOf(shop, db.rows, plan.query), plan.st, plan.iv)
    ensures Unchanging(o, req, plan, v, id,
                       v.Assigned? && Violation(db.rows, NewRow(req, plan, v.technician, v.bay, id)).Some?)
  {
    var w := Quiet(db, id);
    if v.Assigned? {
      SelectedRowOk(shop, db.rows, req, id);
    }
    forall k: nat ensures o.verdict(k) == v && !o.fault(k) && o.id(k) == id {
      assert DayAt(shop, w, plan, k) == DayScheduleOf(shop, db.rows, plan.query);
    }
    if v.Assigned? {
      var row := NewRow(req, plan, v.technician, v.bay, id);
      forall k: nat ensures !o.broken(k, row) && o.loses(k, row) == Violation(db.rows, row).Some? {
        assert Beaten(w, k, row) == o.loses(k, row);
      }
    }
  }

  lemma QuietFinds(db: Db, id: Id, req: Request)
    ensures var found, live := FindIn(Quiet(db, id), 1, Txn(req, Finding, None, None)), LiveRecord(db.records, req);
            if live.None? then found == Txn(req, WantDay, None, None)
            else Concluded(found.phase) && Ending(found) ==
                 match Replay(db.rows, live.value, FingerprintOf(req))
                 case None => Failure
                 case Some(outcome) => Answer(outcome, None, None)
  {
  }

  lemma QuietAnswer(max: nat, db: Db, req: Request, id: Id, plan: Plan, o: Oracle, v: Verdict, lost: bool)
    requires max >= 1 && OracleOk(o) && Unchanging(o, req, plan, v, id, lost)
    requires v.Refused? ==> v.error.code != Contention
    requires o.found(1, Txn(req, Finding, None, None)) == FindIn(Quiet(db, id), 1, Txn(req, Finding, None, None))
    requires v.Assigned? ==> (lost <==> Violation(db.rows, NewRow(req, plan, v.technician, v.bay, id)).Some?)
    ensures Ending(RunUnder(max, o, plan, 0, Txn(req, if req.key.Some? then WantKey else WantDay, None, None))) ==
            match LiveRecord(db.records, req)
            case None => Settle(db.rows, req, Decision(req, plan, v, id))
            case Some(rec) =>
              match Replay(db.rows, rec, FingerprintOf(req))
              case None => Failure
              case Some(outcome) => Answer(outcome, None, None)
  {
    if req.key.None? {
      EndOfDay(max, o, req, plan, v, id, lost, 0);
    } else {
      KeySteps(max, o, plan, req);
      QuietFinds(db, id, req);
      assert !o.fault(0) && !o.fault(1);
      if LiveRecord(db.records, req).None? {
        EndOfDay(max, o, req, plan, v, id, lost, 2);
      }
    }
  }

  // ----- Theorems -----

  /** On any tables that nobody else touches: the stored outcome of a live record, otherwise what the
      selection decides, except that a selected pair whose row conflicts with one that the day's schedule
      does not show is answered with CONTENTION. */
  lemma BookAlone(shop: Shop, db: Db, req: Request, id: Id)
    requires ShopOk(shop)
    ensures BookUnder(shop, Quiet(db, id), req) == AloneAnswer(shop, db, req, id)
  {
    if Check(shop, req).Ready? {
      var plan, w := Check(shop, req).plan, Quiet(db, id);
      var v := Select(DayScheduleOf(shop, db.rows, plan.query), plan.st, plan.iv);
      var o := BookByOracle(shop, w, req, BookUnder(shop, w, req));
      QuietIsUnchanging(shop, db, req, id, plan, o, v);
      VerdictNeverContends(shop, w, plan, o);
      assert o.verdict(0) == v;
      QuietAnswer(shop.maxAttempts, db, req, id, plan, o, v,
                  v.Assigned? && Violation(db.rows, NewRow(req, plan, v.technician, v.bay, id)).Some?);
    }
  }

  /** The row starts outside the day, so the schedule does not show it, and it clashes with r. */
  ghost predicate HiddenRow(rows: seq<Row>, q: ScheduleQuery, r: Row, o: Row) {
    o in rows && !InDay(o, q) && Clash(r, o)
  }

  /** Nothing but a row that starts outside the day can stand in the way of a selected pair. */
  lemma ViolationIsHidden(shop: Shop, rows: seq<Row>, req: Request, id: Id)
    requires ShopOk(shop) && Check(shop, req).Ready? && forall o :: o in rows ==> RowOk(shop, o)
    requires Decide(shop, rows, req, Check(shop, req).plan, id).Booked?
    ensures var plan := Check(shop, req).plan;
            var row := Decide(shop, rows, req, plan, id).row;
            Violation(rows, row).Some? <==> exists o :: HiddenRow(rows, plan.query, row, o)
  {
    var plan := Check(shop, req).plan;
    var row := Decide(shop, rows, req, plan, id).row;
    CheckedRequest(shop, req);
    forall o | o in rows ensures o.iv.start < o.iv.end && (InDay(o, plan.query) ==> !Clash(row, o)) {
      assert RowOk(shop, o);
      if InDay(o, plan.query) {
        DayRowsClear(shop, rows, plan.query, plan.st, row, o);
      }
    }
    ExclusionForbidsClashes(rows, row);
    if Violation(rows, row).Some? {
      var o :| o in rows && Clash(row, o);
      assert HiddenRow(rows, plan.query, row, o);
    }
  }

  /** Without a live record, a lone request that finds a pair hears CONTENTION exactly if a row that starts
      outside the day of the request holds the pair or the vehicle at an overlapping time. */
  lemma HiddenConflictContends(shop: Shop, db: Db, req: Request, id: Id)
    requires ShopOk(shop) && Check(shop, req).Ready? && LiveRecord(db.records, req).None?
    requires forall o :: o in db.rows ==> RowOk(shop, o)
    requires Decide(shop, db.rows, req, Check(shop, req).plan, id).Booked?
    ensures var plan := Check(shop, req).plan;
            var outcome, answer := Decide(shop, db.rows, req, plan, id), BookUnder(shop, Quiet(db, id), req);
            if exists o :: HiddenRow(db.rows, plan.query, outcome.row, o) then answer == Answer(CONTENDED, None, None)
            else answer == Answer(outcome, Some(outcome.row),
                                  if req.key.Some? then Some(RecordOf(req, outcome)) else None)
  {
    BookAlone(shop, db, req, id);
    ViolationIsHidden(shop, db.rows, req, id);
  }

  /** The selected row is accepted by every constraint of good tables. */
  lemma SelectedRowAccepted(shop: Shop, rows: seq<Row>, req: Request, id: Id)
    requires ShopOk(shop) && CalendarsFit(shop) && RowsOk(shop, rows) && RowsInHours(shop, rows)
    requires Check(shop, req).Ready? && Decide(shop, rows, req, Check(shop, req).plan, id).Booked?
    ensures Violation(rows, Decide(shop, rows, req, Check(shop, req).plan, id).row).None?
  {
    var row := Decide(shop, rows, req, Check(shop, req).plan, id).row;
    CheckedRequest(shop, req);
    forall o | o in rows ensures o.iv.start < o.iv.end && !Clash(row, o) {
      var k :| 0 <= k < |rows| && rows[k] == o;
      assert RowOk(shop, rows[k]) && InHours(shop, rows[k]);
      SelectedRowClear(shop, rows, req, id, o);
    }
    ExclusionForbidsClashes(rows, row);
  }

  lemma GoodRecordReplays(db: Db, req: Request)
    requires RecordsOk(db) && LiveRecord(db.records, req).Some?
    ensures Replay(db.rows, LiveRecord(db.records, req).value, FingerprintOf(req)).Some?
  {
    var rec := LiveRecord(db.records, req).value;
    assert RecordOk(db.rows, req.dealership, rec);
    if rec.appointment.Some? {
      FindRowFinds(db.rows, rec.appointment.value);
    }
  }

  /** Run alone on any good tables, Book answers and commits exactly what the indivisible booking does;
      so the serial runs of module Serial are runs of the service itself. */
  lemma BookAloneIsAtomic(shop: Shop, db: Db, req: Request, id: Id)
    requires ShopOk(shop) && CalendarsFit(shop) && DbOk(shop, db) && RowsInHours(shop, db.rows)
    ensures var answer := BookUnder(shop, Quiet(db, id), req);
            && answer.Answer?
            && BookAtomically(shop, db, req, id) == Effect(Publish(db, req, answer.row, answer.record),
                                                           Some(answer.outcome))
  {
    BookAlone(shop, db, req, id);
    if Check(shop, req).Ready? {
      if LiveRecord(db.records, req).Some? {
        GoodRecordReplays(db, req);
      } else if Decide(shop, db.rows, req, Check(shop, req).plan, id).Booked? {
        SelectedRowAccepted(shop, db.rows, req, id);
      }
    }
  }

  /** The tables after Book has run alone. */
  ghost function AfterBook(shop: Shop, db: Db, req: Request, id: Id): Db {
    match BookUnder(shop, Quiet(db, id), req)
    case Failure => db
    case Answer(_, row, record) => Publish(db, req, row, record)
  }
}
