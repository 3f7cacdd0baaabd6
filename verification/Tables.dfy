/** What every run keeps of the two tables, and the history of idempotency records. */
module Tables {
  import opened Policy
  import opened Assignment
  import opened Schema
  import opened Booking
  import opened Protocol
  import opened Safety

  // ----- Appointment rows -----

  ghost predicate Apart(a: Row, b: Row) {
    !Clash(a, b) && a.id != b.id
  }

  ghost predicate RowsOk(shop: Shop, rows: seq<Row>) {
    && (forall k :: 0 <= k < |rows| ==> RowOk(shop, rows[k]))
    && (forall j, k :: 0 <= j < k < |rows| ==> Apart(rows[j], rows[k]))
  }

  /** Uncommitted rows keep apart from every committed row and from each other. */
  ghost predicate PendingOk(s: State) {
    && (forall i, k :: 0 <= i < |s.txns| && s.txns[i].row.Some? && 0 <= k < |s.db.rows| ==>
          Apart(s.txns[i].row.value, s.db.rows[k]))
    && (forall i, j :: 0 <= i < j < |s.txns| && s.txns[i].row.Some? && s.txns[j].row.Some? ==>
          Apart(s.txns[i].row.value, s.txns[j].row.value))
  }

  /** The row of an insert that the constraints let through keeps apart from everything. */
  lemma AdmittedRowApart(shop: Shop, s: State, i: int, r: Row)
    requires ShapesOk(shop, s) && RowsOk(shop, s.db.rows)
    requires RowOk(shop, r) && FreshId(s, r.id) && Violation(s.db.rows, r).None? && !MeetsPending(s, i, r)
    ensures forall k :: 0 <= k < |s.db.rows| ==> Apart(r, s.db.rows[k])
    ensures forall j :: 0 <= j < |s.txns| && j != i && s.txns[j].row.Some? ==> Apart(r, s.txns[j].row.value)
  {
    ExclusionForbidsClashes(s.db.rows, r);
    forall j | 0 <= j < |s.txns| && j != i && s.txns[j].row.Some?
      ensures Apart(r, s.txns[j].row.value)
    {
      assert ShapeOk(shop, s.txns[j]);
      ExclusionForbidsClashes([s.txns[j].row.value], r);
    }
  }

  // ----- Idempotency records -----

  /** The outcome shape and what a stored record promises: exactly one of an existing appointment of
      that payload, or the code of a durable refusal. */
  ghost predicate RecordOk(rows: seq<Row>, dealership: Id, rec: Record) {
    && rec.fingerprint.dealership == dealership
    && (rec.appointment.Some? <==> rec.errorCode.None?)
    && (rec.appointment.Some? ==>
          exists k :: 0 <= k < |rows| && rows[k].id == rec.appointment.value && RowOfRequest(rec.fingerprint, rows[k]))
    && (rec.errorCode.Some? ==> Durable(DomainError(rec.errorCode.value, rec.conflicting)))
  }

  ghost predicate RecordsOk(db: Db) {
    forall k :: k in db.records ==> RecordOk(db.rows, k.0, db.records[k])
  }

  ghost predicate DbOk(shop: Shop, db: Db) {
    RowsOk(shop, db.rows) && RecordsOk(db)
  }

  lemma MoreRowsKeepRecords(db: Db, rows: seq<Row>)
    requires RecordsOk(db) && |db.rows| <= |rows|
    requires forall k :: 0 <= k < |db.rows| ==> rows[k].(status := db.rows[k].status) == db.rows[k]
    ensures RecordsOk(Db(rows, db.records))
  {
    forall k | k in db.records ensures RecordOk(rows, k.0, db.records[k]) {
      var rec := db.records[k];
      assert RecordOk(db.rows, k.0, rec);
      if rec.appointment.Some? {
        var n :| 0 <= n < |db.rows| && db.rows[n].id == rec.appointment.value
          && RowOfRequest(rec.fingerprint, db.rows[n]);
        assert rows[n].id == rec.appointment.value && RowOfRequest(rec.fingerprint, rows[n]);
      }
    }
  }

  lemma CommitKeepsRows(shop: Shop, s: State, i: nat)
    requires ShapesOk(shop, s) && RowsOk(shop, s.db.rows) && PendingOk(s) && i < |s.txns| && s.txns[i].phase.Committing?
    ensures RowsOk(shop, CommitTxn(s, i).db.rows) && PendingOk(CommitTxn(s, i))
  {
    assert ShapeOk(shop, s.txns[i]);
  }

  lemma PublishKeepsRecords(shop: Shop, db: Db, t: Txn)
    requires RecordsOk(db) && t.phase.Committing? && ShapeOk(shop, t)
    ensures RecordsOk(Publish(db, t.req, t.row, t.record))
  {
    var after := Publish(db, t.req, t.row, t.record);
    MoreRowsKeepRecords(db, after.rows);
    if t.record.Some? {
      var rec := t.record.value;
      assert RecordOk(after.rows, t.req.dealership, rec) by {
        if t.phase.outcome.Booked? {
          assert after.rows[|db.rows|] == t.phase.outcome.row;
        }
      }
    }
  }

  /** Publishing an admitted row and its record keeps the tables good. */
  lemma CommitKeepsTables(shop: Shop, s: State, i: nat)
    requires ShapesOk(shop, s) && DbOk(shop, s.db) && PendingOk(s) && i < |s.txns| && s.txns[i].phase.Committing?
    ensures DbOk(shop, CommitTxn(s, i).db) && PendingOk(CommitTxn(s, i))
  {
    assert ShapeOk(shop, s.txns[i]);
    CommitKeepsRows(shop, s, i);
    PublishKeepsRecords(shop, s.db, s.txns[i]);
  }

  lemma CancelKeepsTables(shop: Shop, s: State, k: nat)
    requires DbOk(shop, s.db) && PendingOk(s) && k < |s.db.rows|
    ensures DbOk(shop, Apply(shop, s, Cancel(k)).db) && PendingOk(Apply(shop, s, Cancel(k)))
  {
    MoreRowsKeepRecords(s.db, s.db.rows[k := s.db.rows[k].(status := Cancelled)]);
  }

  lemma ForeignKeepsTables(shop: Shop, s: State, row: Row)
    requires ShapesOk(shop, s) && DbOk(shop, s.db) && PendingOk(s) && Enabled(shop, s, Foreign(row))
    ensures DbOk(shop, Apply(shop, s, Foreign(row)).db) && PendingOk(Apply(shop, s, Foreign(row)))
  {
    AdmittedRowApart(shop, s, -1, row);
    MoreRowsKeepRecords(s.db, s.db.rows + [row]);
  }

  lemma InsertKeepsTables(shop: Shop, s: State, i: nat, id: Id)
    requires ShapesOk(shop, s) && DbOk(shop, s.db) && PendingOk(s) && i < |s.txns| && CanAct(shop, s, i, Insert(id))
    ensures PendingOk(Act(shop, s, i, Insert(id)))
  {
    AdmittedRowApart(shop, s, i, RowFor(shop, s.txns[i], id));
  }

  lemma ActKeepsTables(shop: Shop, s: State, i: nat, action: Action)
    requires i < |s.txns| && CanAct(shop, s, i, action)
    requires ShapesOk(shop, s) && DbOk(shop, s.db) && PendingOk(s)
    ensures DbOk(shop, Act(shop, s, i, action).db) && PendingOk(Act(shop, s, i, action))
  {
    if action.Commit? {
      CommitKeepsTables(shop, s, i);
    } else {
      OnlyOwnTxnMoves(shop, s, i, action);
      if action.Insert? {
        InsertKeepsTables(shop, s, i, action.id);
      } else {
        NoNewRow(shop, s, i, action);
      }
    }
  }

  lemma NoNewRow(shop: Shop, s: State, i: nat, action: Action)
    requires i < |s.txns| && CanAct(shop, s, i, action) && !action.Commit? && !action.Insert?
    ensures Act(shop, s, i, action).txns[i].row == s.txns[i].row || Act(shop, s, i, action).txns[i].row == None
  {
  }

  /** Before its commit a transaction changes nothing but itself and the locks. */
  lemma OnlyOwnTxnMoves(shop: Shop, s: State, i: nat, action: Action)
    requires i < |s.txns| && CanAct(shop, s, i, action) && !action.Commit?
    ensures var s' := Act(shop, s, i, action);
            s'.log == s.log && s'.db == s.db && |s'.txns| == |s.txns| && s'.txns == s.txns[i := s'.txns[i]]
              && !s'.txns[i].phase.Done?
  {
  }

  lemma RequestsStay(shop: Shop, s: State, i: nat, action: Action)
    requires i < |s.txns| && CanAct(shop, s, i, action)
    ensures var s' := Act(shop, s, i, action);
            |s'.txns| == |s.txns| && forall k :: 0 <= k < |s.txns| ==> s'.txns[k].req == s.txns[k].req
  {
  }

  // ----- The history of records -----

  function RecordsAfter(records: map<(Id, Key), Record>, log: seq<Entry>): map<(Id, Key), Record> {
    if |log| == 0 then records
    else
      var e := log[|log| - 1];
      Upsert(RecordsAfter(records, log[..|log| - 1]), e.req, e.record)
  }

  /** The outcome repeats what the record says; a replayed booking is the recorded appointment. */
  ghost predicate Repeats(rec: Record, fp: Fingerprint, o: Outcome) {
    if rec.fingerprint != fp then o == Rejected(DomainError(IdempotencyKeyReused, []))
    else if rec.appointment.Some? then o.Booked? && o.row.id == rec.appointment.value
    else rec.errorCode.Some? && o == Rejected(DomainError(rec.errorCode.value, rec.conflicting))
  }

  /** How a committed transaction relates to the records as they were just before it committed. */
  ghost predicate EntryOk(records: map<(Id, Key), Record>, e: Entry) {
    match LiveRecord(records, e.req)
    case Some(rec) => e.row == None && e.record == None && Repeats(rec, FingerprintOf(e.req), e.outcome)
    case None =>
      if e.outcome == CONTENDED then e.row == None && e.record == None
      else
        && (e.outcome.Booked? ==> e.row == Some(e.outcome.row))
        && (e.outcome.Rejected? ==> e.row == None && Durable(e.outcome.error))
        && e.record == if e.req.key.Some? then Some(RecordOf(e.req, e.outcome)) else None
  }

  /** What a transaction knows about its key while it holds the key lock. */
  ghost predicate KeyOk(records: map<(Id, Key), Record>, t: Txn) {
    && (t.phase.WantDay? || PastDay(t.phase) ==> LiveRecord(records, t.req).None?)
    && (t.phase.Committing? && t.phase.replayed ==>
          LiveRecord(records, t.req).Some? && Repeats(LiveRecord(records, t.req).value, FingerprintOf(t.req),
                                                      t.phase.outcome))
  }

  /** Each entry relates in that way to the records left by the entries before it. */
  ghost predicate EntriesOk(records: map<(Id, Key), Record>, log: seq<Entry>) {
    |log| == 0 ||
    var n := |log| - 1;
    EntriesOk(records, log[..n]) && EntryOk(RecordsAfter(records, log[..n]), log[n])
  }

  lemma {:induction false} EntryAt(records: map<(Id, Key), Record>, log: seq<Entry>, k: nat)
    requires EntriesOk(records, log) && k < |log|
    ensures EntryOk(RecordsAfter(records, log[..k]), log[k])
  {
    var n := |log| - 1;
    if k == n {
    } else {
      EntryAt(records, log[..n], k);
      assert log[..n][..k] == log[..k];
    }
  }

  ghost predicate KeysOk(s: State) {
    forall i :: 0 <= i < |s.txns| ==> KeyOk(s.db.records, s.txns[i])
  }

  ghost predicate HistoryOk(records: map<(Id, Key), Record>, s: State) {
    s.db.records == RecordsAfter(records, s.log) && EntriesOk(records, s.log)
  }

  /** A commit cannot touch the record another transaction has locked. */
  lemma OtherKeyUntouched(shop: Shop, s: State, i: nat, j: nat)
    requires ShapesOk(shop, s) && LocksOk(shop, s) && i < |s.txns| && j < |s.txns| && i != j
    requires s.txns[i].phase.Committing? && KeyOk(s.db.records, s.txns[j])
    ensures KeyOk(CommitTxn(s, i).db.records, s.txns[j])
  {
    var t, u := s.txns[i], s.txns[j];
    assert ShapeOk(shop, t) && ShapeOk(shop, u);
    if PastKey(u) && PastKey(t) {
      assert Owns(shop, t, KeyLockOf(shop, t.req)) && Owns(shop, u, KeyLockOf(shop, u.req));
      assert KeyLockOf(shop, t.req) != KeyLockOf(shop, u.req);
      assert (t.req.dealership, t.req.key.value) != (u.req.dealership, u.req.key.value);
    }
  }

  lemma CommitKeepsKeys(shop: Shop, s: State, i: nat)
    requires ShapesOk(shop, s) && LocksOk(shop, s) && KeysOk(s) && i < |s.txns| && s.txns[i].phase.Committing?
    ensures KeysOk(CommitTxn(s, i))
  {
    var s' := CommitTxn(s, i);
    forall j | 0 <= j < |s'.txns| ensures KeyOk(s'.db.records, s'.txns[j]) {
      if j != i {
        assert KeyOk(s.db.records, s.txns[j]);
        OtherKeyUntouched(shop, s, i, j);
      }
    }
  }

  lemma CommittedEntryOk(shop: Shop, records: map<(Id, Key), Record>, t: Txn, i: nat)
    requires t.phase.Committing? && ShapeOk(shop, t) && KeyOk(records, t)
    ensures EntryOk(records, Entry(i, t.req, t.phase.outcome, t.row, t.record))
  {
  }

  lemma HistoryGrows(records: map<(Id, Key), Record>, log: seq<Entry>, e: Entry)
    requires EntriesOk(records, log) && EntryOk(RecordsAfter(records, log), e)
    ensures EntriesOk(records, log + [e])
    ensures RecordsAfter(records, log + [e]) == Upsert(RecordsAfter(records, log), e.req, e.record)
  {
    assert (log + [e])[..|log|] == log;
  }

  lemma FindLearnsKey(db: Db, t: Txn)
    requires t.phase.Finding?
    ensures KeyOk(db.records, AfterFind(db, t))
  {
    var live := LiveRecord(db.records, t.req);
    if live.Some? && live.value.appointment.Some? {
      FindRowFinds(db.rows, live.value.appointment.value);
    }
  }

  lemma LocalKeepsKey(shop: Shop, db: Db, t: Txn, action: Action)
    requires KeyOk(db.records, t) && Fits(shop, t, action)
    ensures KeyOk(db.records, LocalNext(shop, db.rows, t, action))
  {
  }

  lemma ActKeepsKey(shop: Shop, s: State, i: nat, action: Action)
    requires i < |s.txns| && CanAct(shop, s, i, action) && !action.Commit? && KeyOk(s.db.records, s.txns[i])
    ensures KeyOk(s.db.records, Act(shop, s, i, action).txns[i])
  {
    var t := s.txns[i];
    if Fits(shop, t, action) {
      LocalKeepsKey(shop, s.db, t, action);
    } else if action.Find? {
      FindLearnsKey(s.db, t);
    }
  }

  lemma ActKeepsKeys(shop: Shop, s: State, i: nat, action: Action)
    requires ShapesOk(shop, s) && LocksOk(shop, s) && KeysOk(s)
    requires i < |s.txns| && CanAct(shop, s, i, action)
    ensures KeysOk(Act(shop, s, i, action))
  {
    if action.Commit? {
      CommitKeepsKeys(shop, s, i);
    } else {
      assert KeyOk(s.db.records, s.txns[i]);
      ActKeepsKey(shop, s, i, action);
      OnlyOwnTxnMoves(shop, s, i, action);
    }
  }
}
