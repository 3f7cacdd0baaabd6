/** Runs in which only bookings write: the same tables and results as booking one request at a time. */
module Serial {
  import opened Policy
  import opened Assignment
  import opened Hours
  import opened Schema
  import opened Booking
  import opened Protocol
  import opened Safety
  import opened Tables
  import opened Runs
  import opened Races

  // ----- Days do not overlap -----

  /** An appointment inside opening hours starts within the bounds of its own day and of no other. */
  lemma StartsInItsDay(shop: Shop, r: Row, d: int)
    requires ClocksFit(shop) && InHours(shop, r) && r.iv.start < r.iv.end
    ensures Bounds(shop.dealerships[r.dealership], d).Contains(r.iv.start) <==> d == DayOf(shop, r)
    ensures r.iv.end <= Bounds(shop.dealerships[r.dealership], DayOf(shop, r)).end
  {
    var dl, own := shop.dealerships[r.dealership], DayOf(shop, r);
    assert ClockFits(dl);
    assert Bounds(dl, own).Contains(r.iv.start);
    if own < d { assert Bounds(dl, own).end <= Bounds(dl, d).start; }
    if d < own { assert Bounds(dl, d).end <= Bounds(dl, own).start; }
  }

  // ----- One booking at a time -----

  function IdOf(o: Outcome): Id {
    if o.Booked? then o.row.id else 0
  }

  /** The tables after booking the requests of the history one by one, indivisibly. */
  function SerialDb(shop: Shop, db: Db, log: seq<Entry>): Db {
    if |log| == 0 then db
    else
      var e := log[|log| - 1];
      BookAtomically(shop, SerialDb(shop, db, log[..|log| - 1]), e.req, IdOf(e.outcome)).db
  }

  /** Each committed request got the result it would have got in that serial order. */
  ghost predicate SerialResults(shop: Shop, db: Db, log: seq<Entry>) {
    |log| == 0 ||
    var n := |log| - 1;
    && SerialResults(shop, db, log[..n])
    && log[n].outcome != CONTENDED
    && BookAtomically(shop, SerialDb(shop, db, log[..n]), log[n].req, IdOf(log[n].outcome)).outcome
       == Some(log[n].outcome)
  }

  lemma {:induction false} SerialResultAt(shop: Shop, db: Db, log: seq<Entry>, k: nat)
    requires SerialResults(shop, db, log) && k < |log|
    ensures log[k].outcome != CONTENDED
    ensures BookAtomically(shop, SerialDb(shop, db, log[..k]), log[k].req, IdOf(log[k].outcome)).outcome
            == Some(log[k].outcome)
  {
    var n := |log| - 1;
    if k == n {
    } else {
      SerialResultAt(shop, db, log[..n], k);
      assert log[..n][..k] == log[..k];
    }
  }

  ghost predicate SerialOk(shop: Shop, db: Db, s: State) {
    s.db == SerialDb(shop, db, s.log) && SerialResults(shop, db, s.log)
  }

  /** What a transaction has found out would come out the same if it ran alone right now. */
  ghost predicate CurrentOk(shop: Shop, db: Db, t: Txn) {
    && !t.phase.Rechecking?
    && (t.phase.Inserting? && Check(shop, t.req).Ready? ==>
          var plan := Check(shop, t.req).plan;
          Select(DayScheduleOf(shop, db.rows, plan.query), plan.st, plan.iv)
            == Assigned(t.phase.technician, t.phase.bay))
    && (t.phase.Saving? || (t.phase.Committing? && !t.phase.replayed) ==>
          Check(shop, t.req).Ready? && t.phase.outcome != CONTENDED
          && t.phase.outcome == Decide(shop, db.rows, t.req, Check(shop, t.req).plan, IdOf(t.phase.outcome)))
    && (t.phase.Committing? && t.phase.replayed ==>
          LiveRecord(db.records, t.req).Some?
          && Replay(db.rows, LiveRecord(db.records, t.req).value, FingerprintOf(t.req)) == Some(t.phase.outcome))
  }

  ghost predicate BookingsInv(shop: Shop, s: State) {
    UnbeatenInv(shop, s) && forall i :: 0 <= i < |s.txns| ==> CurrentOk(shop, s.db, s.txns[i])
  }

  // ----- Preservation -----

  lemma ReadKeepsCurrent(shop: Shop, db: Db, t: Txn)
    requires CurrentOk(shop, db, t) && t.phase.Reading? && Check(shop, t.req).Ready?
    ensures CurrentOk(shop, db, AfterRead(shop, Check(shop, t.req).plan, db.rows, t))
  {
    var plan := Check(shop, t.req).plan;
    match Select(DayScheduleOf(shop, db.rows, plan.query), plan.st, plan.iv)
    case Refused(e) =>
    case Assigned(technician, bay) =>
  }

  lemma InsertKeepsCurrent(shop: Shop, db: Db, t: Txn, id: Id)
    requires CurrentOk(shop, db, t) && t.phase.Inserting? && Check(shop, t.req).Ready?
    ensures CurrentOk(shop, db, AfterInsert(t, RowFor(shop, t, id)))
  {
    assert Decide(shop, db.rows, t.req, Check(shop, t.req).plan, id) == Booked(RowFor(shop, t, id));
  }

  lemma LocalKeepsCurrent(shop: Shop, db: Db, t: Txn, action: Action)
    requires CurrentOk(shop, db, t) && Fits(shop, t, action) && !action.Lose?
    ensures CurrentOk(shop, db, LocalNext(shop, db.rows, t, action))
  {
    match action
    case Read => ReadKeepsCurrent(shop, db, t);
    case Insert(id) => InsertKeepsCurrent(shop, db, t, id);
    case Start =>
    case Save =>
    case Recheck =>
  }

  lemma {:induction false} FindRowStays(rows: seq<Row>, r: Row, id: Id)
    requires FindRow(rows, id).Some?
    ensures FindRow(rows + [r], id) == FindRow(rows, id)
  {
    if rows[0].id == id {
    } else {
      FindRowStays(rows[1..], r, id);
      assert (rows + [r])[1..] == rows[1..] + [r];
    }
  }

  /** What another transaction publishes is not in the day this one has locked. */
  lemma OtherRowNotInDay(shop: Shop, s: State, i: nat, j: nat)
    requires ShopOk(shop) && ClocksFit(shop) && ShapesOk(shop, s) && LocksOk(shop, s)
    requires i < |s.txns| && j < |s.txns| && i != j && s.txns[i].row.Some? && PastDay(s.txns[j].phase)
    ensures Check(shop, s.txns[j].req).Ready? && !InDay(s.txns[i].row.value, Check(shop, s.txns[j].req).plan.query)
  {
    var t, u := s.txns[i], s.txns[j];
    assert ShapeOk(shop, t) && ShapeOk(shop, u);
    PendingRowDay(shop, t);
    DayLocksSeparate(shop, s, i, j);
    CheckedRequest(shop, u.req);
    StartsInItsDay(shop, t.row.value, Check(shop, u.req).plan.day);
  }

  lemma OtherCommitKeepsCurrent(shop: Shop, s: State, i: nat, j: nat)
    requires ShopOk(shop) && ClocksFit(shop) && ShapesOk(shop, s) && LocksOk(shop, s)
    requires i < |s.txns| && j < |s.txns| && i != j && s.txns[i].phase.Committing?
    requires KeyOk(s.db.records, s.txns[j]) && CurrentOk(shop, s.db, s.txns[j])
    ensures CurrentOk(shop, CommitTxn(s, i).db, s.txns[j])
  {
    var t, u, db := s.txns[i], s.txns[j], CommitTxn(s, i).db;
    if PastDay(u.phase) {
      if t.row.Some? {
        OtherRowNotInDay(shop, s, i, j);
        OtherDayLeavesSchedule(shop, s.db.rows, t.row.value, Check(shop, u.req).plan.query);
      }
    } else if u.phase.Committing? {
      OtherRecordStays(shop, s, i, j);
      var rec := LiveRecord(s.db.records, u.req).value;
      if t.row.Some? && rec.appointment.Some? && FindRow(s.db.rows, rec.appointment.value).Some? {
        FindRowStays(s.db.rows, t.row.value, rec.appointment.value);
      }
    }
  }

  lemma OtherRecordStays(shop: Shop, s: State, i: nat, j: nat)
    requires ShapesOk(shop, s) && LocksOk(shop, s) && i < |s.txns| && j < |s.txns| && i != j
    requires s.txns[i].phase.Committing? && PastKey(s.txns[j])
    ensures LiveRecord(CommitTxn(s, i).db.records, s.txns[j].req) == LiveRecord(s.db.records, s.txns[j].req)
  {
    var t, u := s.txns[i], s.txns[j];
    assert ShapeOk(shop, t);
    if PastKey(t) {
      assert Owns(shop, t, KeyLockOf(shop, t.req)) && Owns(shop, u, KeyLockOf(shop, u.req));
      assert KeyLockOf(shop, t.req) != KeyLockOf(shop, u.req);
    }
  }

  /** Committing now has exactly the effect and the result of the indivisible booking. */
  lemma CommitIsAtomic(shop: Shop, db: Db, t: Txn)
    requires ShapeOk(shop, t) && CurrentOk(shop, db, t) && KeyOk(db.records, t) && t.phase.Committing?
    ensures BookAtomically(shop, db, t.req, IdOf(t.phase.outcome))
            == Effect(Publish(db, t.req, t.row, t.record), Some(t.phase.outcome))
  {
  }

  lemma CommitIsNotContended(shop: Shop, db: Db, t: Txn)
    requires RecordsOk(db) && CurrentOk(shop, db, t) && t.phase.Committing?
    ensures t.phase.outcome != CONTENDED
  {
    if t.phase.replayed {
      assert RecordOk(db.rows, t.req.dealership, LiveRecord(db.records, t.req).value);
    }
  }

  lemma CommitKeepsSerial(shop: Shop, db: Db, s: State, i: nat)
    requires i < |s.txns| && s.txns[i].phase.Committing? && SerialOk(shop, db, s) && RecordsOk(s.db)
    requires ShapeOk(shop, s.txns[i]) && CurrentOk(shop, s.db, s.txns[i]) && KeyOk(s.db.records, s.txns[i])
    ensures SerialOk(shop, db, CommitTxn(s, i))
  {
    CommitIsAtomic(shop, s.db, s.txns[i]);
    CommitIsNotContended(shop, s.db, s.txns[i]);
    assert CommitTxn(s, i).log[..|s.log|] == s.log;
  }

  lemma CommitKeepsBookings(shop: Shop, s: State, i: nat)
    requires i < |s.txns| && s.txns[i].phase.Committing?
    requires ShopOk(shop) && ClocksFit(shop) && BookingsInv(shop, s)
    ensures forall j :: 0 <= j < |s.txns| ==> CurrentOk(shop, CommitTxn(s, i).db, CommitTxn(s, i).txns[j])
  {
    var s' := CommitTxn(s, i);
    forall j | 0 <= j < |s.txns| ensures CurrentOk(shop, s'.db, s'.txns[j]) {
      if j != i {
        assert KeyOk(s.db.records, s.txns[j]) && CurrentOk(shop, s.db, s.txns[j]);
        OtherCommitKeepsCurrent(shop, s, i, j);
      }
    }
  }

  lemma StatementKeepsBookings(shop: Shop, s: State, i: nat, action: Action)
    requires i < |s.txns| && CanAct(shop, s, i, action) && !action.Commit?
    requires ShopOk(shop) && CalendarsFit(shop) && BookingsInv(shop, s)
    ensures var s' := Act(shop, s, i, action);
            forall j :: 0 <= j < |s'.txns| ==> CurrentOk(shop, s'.db, s'.txns[j])
  {
    assert CurrentOk(shop, s.db, s.txns[i]) && UnbeatenOk(shop, s.db.rows, s.txns[i]);
    OnlyOwnTxnMoves(shop, s, i, action);
    NeverLoses(shop, s, i);
    ActKeepsOwnCurrent(shop, s, i, action);
  }

  lemma ActKeepsBookings(shop: Shop, s: State, i: nat, action: Action)
    requires i < |s.txns| && CanAct(shop, s, i, action)
    requires ShopOk(shop) && ClocksFit(shop) && BookingsInv(shop, s)
    ensures BookingsInv(shop, Act(shop, s, i, action))
  {
    ClocksFitCalendars(shop);
    ApplyKeepsUnbeaten(shop, s, Step(i, action));
    if action.Commit? {
      CommitKeepsBookings(shop, s, i);
    } else {
      StatementKeepsBookings(shop, s, i, action);
    }
  }

  lemma ActKeepsOwnCurrent(shop: Shop, s: State, i: nat, action: Action)
    requires i < |s.txns| && CanAct(shop, s, i, action) && !action.Commit? && !action.Lose?
    requires CurrentOk(shop, s.db, s.txns[i])
    ensures CurrentOk(shop, s.db, Act(shop, s, i, action).txns[i])
  {
    if Fits(shop, s.txns[i], action) {
      LocalKeepsCurrent(shop, s.db, s.txns[i], action);
    }
  }

  lemma {:induction false} RunKeepsBookings(shop: Shop, db: Db, reqs: seq<Request>, evs: seq<Event>)
    requires ShopOk(shop) && ClocksFit(shop) && DbOk(shop, db) && RowsInHours(shop, db.rows)
    requires BookingsOnly(evs) && RunTo(shop, InitialState(db, reqs), evs).Some?
    ensures BookingsInv(shop, RunTo(shop, InitialState(db, reqs), evs).value)
  {
    if |evs| == 0 {
      ClocksFitCalendars(shop);
      RunKeepsUnbeaten(shop, db, reqs, evs);
    } else {
      var n := |evs| - 1;
      RunKeepsBookings(shop, db, reqs, evs[..n]);
      assert evs[n].Step?;
      ActKeepsBookings(shop, RunTo(shop, InitialState(db, reqs), evs[..n]).value, evs[n].i, evs[n].action);
    }
  }

  lemma ActKeepsSerial(shop: Shop, db: Db, s: State, i: nat, action: Action)
    requires i < |s.txns| && CanAct(shop, s, i, action) && BookingsInv(shop, s) && SerialOk(shop, db, s)
    ensures SerialOk(shop, db, Act(shop, s, i, action))
  {
    if action.Commit? {
      assert ShapeOk(shop, s.txns[i]) && CurrentOk(shop, s.db, s.txns[i]) && KeyOk(s.db.records, s.txns[i]);
      CommitKeepsSerial(shop, db, s, i);
    } else {
      OnlyOwnTxnMoves(shop, s, i, action);
    }
  }

  lemma {:induction false} RunKeepsSerial(shop: Shop, db: Db, reqs: seq<Request>, evs: seq<Event>)
    requires ShopOk(shop) && ClocksFit(shop) && DbOk(shop, db) && RowsInHours(shop, db.rows)
    requires BookingsOnly(evs) && RunTo(shop, InitialState(db, reqs), evs).Some?
    ensures SerialOk(shop, db, RunTo(shop, InitialState(db, reqs), evs).value)
  {
    if |evs| == 0 {
    } else {
      var n := |evs| - 1;
      RunKeepsBookings(shop, db, reqs, evs[..n]);
      RunKeepsSerial(shop, db, reqs, evs[..n]);
      assert evs[n].Step?;
      ActKeepsSerial(shop, db, RunTo(shop, InitialState(db, reqs), evs[..n]).value, evs[n].i, evs[n].action);
    }
  }

  // ----- Theorems -----

  /** Every interleaving of bookings ends with the same appointment table and idempotency table, and
      gives every committed request the same result, as booking them one at a time in commit order. The
      commit order names each finished transaction once, with its request and its result. */
  lemma Serialisable(shop: Shop, db: Db, reqs: seq<Request>, evs: seq<Event>)
    requires ShopOk(shop) && ClocksFit(shop) && DbOk(shop, db) && RowsInHours(shop, db.rows)
    requires BookingsOnly(evs) && RunTo(shop, InitialState(db, reqs), evs).Some?
    ensures var s := RunTo(shop, InitialState(db, reqs), evs).value;
            && s.db == SerialDb(shop, db, s.log)
            && |s.txns| == |reqs|
            && (forall k :: 0 <= k < |s.log| ==>
                  && s.log[k].tx < |reqs| && s.log[k].req == reqs[s.log[k].tx]
                  && s.txns[s.log[k].tx].phase == Done(s.log[k].outcome))
            && (forall j, k :: 0 <= j < k < |s.log| ==> s.log[j].tx != s.log[k].tx)
            && (forall k :: 0 <= k < |s.log| ==>
                  var before := SerialDb(shop, db, s.log[..k]);
                  BookAtomically(shop, before, s.log[k].req, IdOf(s.log[k].outcome)).outcome == Some(s.log[k].outcome))
            && (forall i :: 0 <= i < |s.txns| && s.txns[i].phase.Done? ==>
                  exists k :: 0 <= k < |s.log| && s.log[k].tx == i && s.log[k].outcome == s.txns[i].phase.outcome)
            && (forall i :: 0 <= i < |s.txns| && s.txns[i].phase.TurnedAway? ==>
                  BookAtomically(shop, s.db, s.txns[i].req, 0) == Effect(s.db, Some(Rejected(s.txns[i].phase.error))))
  {
    RunKeepsBookings(shop, db, reqs, evs);
    RunKeepsSerial(shop, db, reqs, evs);
    RunKeepsLog(shop, db, reqs, evs);
    RunKeepsRequests(shop, db, reqs, evs);
    var s := RunTo(shop, InitialState(db, reqs), evs).value;
    forall i | 0 <= i < |s.txns| && s.txns[i].phase.TurnedAway?
      ensures BookAtomically(shop, s.db, s.txns[i].req, 0) == Effect(s.db, Some(Rejected(s.txns[i].phase.error)))
    {
      assert ShapeOk(shop, s.txns[i]);
    }
    forall i | 0 <= i < |s.txns| && s.txns[i].phase.Done?
      ensures exists k :: 0 <= k < |s.log| && s.log[k].tx == i && s.log[k].outcome == s.txns[i].phase.outcome
    {
      var k :| 0 <= k < |s.log| && s.log[k].tx == i;
    }
    forall k | 0 <= k < |s.log|
      ensures var before := SerialDb(shop, db, s.log[..k]);
              BookAtomically(shop, before, s.log[k].req, IdOf(s.log[k].outcome)).outcome == Some(s.log[k].outcome)
    {
      SerialResultAt(shop, db, s.log, k);
    }
  }
}
