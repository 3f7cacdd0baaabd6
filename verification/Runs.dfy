/** Theorems about whole runs in which anyone may insert or cancel rows: the invariants of the
    requirements, consistent records, key separation and stable replay. */
module Runs {
  import opened Policy
  import opened Assignment
  import opened Hours
  import opened Schema
  import opened Booking
  import opened Protocol
  import opened Safety
  import opened Tables

  /** The commit history names each finished transaction exactly once, with its result. */
  ghost predicate LogOk(s: State) {
    && (forall k :: 0 <= k < |s.log| ==>
          s.log[k].tx < |s.txns| && s.txns[s.log[k].tx].phase == Done(s.log[k].outcome)
            && s.txns[s.log[k].tx].req == s.log[k].req)
    && (forall j, k :: 0 <= j < k < |s.log| ==> s.log[j].tx != s.log[k].tx)
    && (forall i :: 0 <= i < |s.txns| && s.txns[i].phase.Done? ==> exists k :: 0 <= k < |s.log| && s.log[k].tx == i)
  }

  lemma CommitKeepsLog(s: State, i: nat)
    requires LogOk(s) && i < |s.txns| && s.txns[i].phase.Committing?
    ensures LogOk(CommitTxn(s, i))
  {
    var s' := CommitTxn(s, i);
    assert s'.log[|s.log|].tx == i;
    forall j | 0 <= j < |s'.txns| && s'.txns[j].phase.Done? ensures exists k :: 0 <= k < |s'.log| && s'.log[k].tx == j {
      if j != i {
        var k :| 0 <= k < |s.log| && s.log[k].tx == j;
        assert s'.log[k].tx == j;
      }
    }
  }

  lemma ActKeepsLog(shop: Shop, s: State, i: nat, action: Action)
    requires LogOk(s) && i < |s.txns| && CanAct(shop, s, i, action)
    ensures LogOk(Act(shop, s, i, action))
  {
    if action.Commit? {
      CommitKeepsLog(s, i);
    } else {
      assert !s.txns[i].phase.Done?;
      OnlyOwnTxnMoves(shop, s, i, action);
    }
  }

  /** What every step keeps, whoever takes it. */
  ghost predicate Inv(shop: Shop, s: State) {
    ShapesOk(shop, s) && LocksOk(shop, s) && DbOk(shop, s.db) && PendingOk(s) && KeysOk(s)
  }

  lemma ApplyKeepsInv(shop: Shop, s: State, ev: Event)
    requires ShopOk(shop) && Inv(shop, s) && Enabled(shop, s, ev)
    ensures Inv(shop, Apply(shop, s, ev))
  {
    match ev
    case Step(i, action) =>
      ActKeepsShapes(shop, s, i, action);
      ActKeepsLocks(shop, s, i, action);
      ActKeepsTables(shop, s, i, action);
      ActKeepsKeys(shop, s, i, action);
    case Foreign(row) => ForeignKeepsTables(shop, s, row);
    case Cancel(k) => CancelKeepsTables(shop, s, k);
  }

  lemma {:induction false} RunKeepsInv(shop: Shop, db: Db, reqs: seq<Request>, evs: seq<Event>)
    requires ShopOk(shop) && DbOk(shop, db) && RunTo(shop, InitialState(db, reqs), evs).Some?
    ensures Inv(shop, RunTo(shop, InitialState(db, reqs), evs).value)
  {
    if |evs| == 0 {
    } else {
      var n := |evs| - 1;
      RunKeepsInv(shop, db, reqs, evs[..n]);
      ApplyKeepsInv(shop, RunTo(shop, InitialState(db, reqs), evs[..n]).value, evs[n]);
    }
  }

  lemma {:induction false} RunKeepsLog(shop: Shop, db: Db, reqs: seq<Request>, evs: seq<Event>)
    requires RunTo(shop, InitialState(db, reqs), evs).Some?
    ensures LogOk(RunTo(shop, InitialState(db, reqs), evs).value)
  {
    if |evs| == 0 {
    } else {
      var n := |evs| - 1;
      RunKeepsLog(shop, db, reqs, evs[..n]);
      if evs[n].Step? {
        ActKeepsLog(shop, RunTo(shop, InitialState(db, reqs), evs[..n]).value, evs[n].i, evs[n].action);
      }
    }
  }

  lemma ApplyKeepsHistory(shop: Shop, records: map<(Id, Key), Record>, s: State, ev: Event)
    requires Inv(shop, s) && HistoryOk(records, s) && Enabled(shop, s, ev)
    ensures HistoryOk(records, Apply(shop, s, ev))
  {
    if ev.Step? {
      if ev.action.Commit? {
        var t := s.txns[ev.i];
        assert ShapeOk(shop, t) && KeyOk(s.db.records, t);
        CommittedEntryOk(shop, s.db.records, t, ev.i);
        HistoryGrows(records, s.log, Entry(ev.i, t.req, t.phase.outcome, t.row, t.record));
      } else {
        OnlyOwnTxnMoves(shop, s, ev.i, ev.action);
      }
    }
  }

  lemma {:induction false} RunKeepsHistory(shop: Shop, db: Db, reqs: seq<Request>, evs: seq<Event>)
    requires ShopOk(shop) && DbOk(shop, db) && RunTo(shop, InitialState(db, reqs), evs).Some?
    ensures HistoryOk(db.records, RunTo(shop, InitialState(db, reqs), evs).value)
  {
    if |evs| == 0 {
    } else {
      var n := |evs| - 1;
      RunKeepsInv(shop, db, reqs, evs[..n]);
      RunKeepsHistory(shop, db, reqs, evs[..n]);
      ApplyKeepsHistory(shop, db.records, RunTo(shop, InitialState(db, reqs), evs[..n]).value, evs[n]);
    }
  }

  lemma {:induction false} RunKeepsRequests(shop: Shop, db: Db, reqs: seq<Request>, evs: seq<Event>)
    requires RunTo(shop, InitialState(db, reqs), evs).Some?
    ensures var s := RunTo(shop, InitialState(db, reqs), evs).value;
            |s.txns| == |reqs| && forall i :: 0 <= i < |reqs| ==> s.txns[i].req == reqs[i]
  {
    if |evs| == 0 {
    } else {
      var n := |evs| - 1;
      RunKeepsRequests(shop, db, reqs, evs[..n]);
      if evs[n].Step? {
        RequestsStay(shop, RunTo(shop, InitialState(db, reqs), evs[..n]).value, evs[n].i, evs[n].action);
      }
    }
  }

  /** A record that is live for a clock reading is only ever replaced by one that is live for it too. */
  lemma {:induction false} LiveStaysLive(records: map<(Id, Key), Record>, log: seq<Entry>, req: Request)
    requires EntriesOk(records, log) && LiveRecord(records, req).Some?
    ensures LiveRecord(RecordsAfter(records, log), req).Some?
    ensures var kk := (req.dealership, req.key.value); records[kk].expires <= RecordsAfter(records, log)[kk].expires
  {
    if |log| == 0 {
    } else {
      LiveStaysLive(records, log[..|log| - 1], req);
    }
  }

  // ----- Theorems -----

  /** INV-1 to INV-5 and INV-7 hold in every state that bookings, aborts, cancellations and writers
      who ignore the locks can reach, in any interleaving. */
  lemma InvariantsAlwaysHold(shop: Shop, db: Db, reqs: seq<Request>, evs: seq<Event>)
    requires ShopOk(shop) && DbOk(shop, db) && RunTo(shop, InitialState(db, reqs), evs).Some?
    ensures var rows := RunTo(shop, InitialState(db, reqs), evs).value.db.rows;
            && NoDoubleBooking(rows)
            && (forall k :: 0 <= k < |rows| ==> QualifiedAndLocal(shop, rows[k]))
            && (forall k :: 0 <= k < |rows| ==> rows[k].customer in shop.customers && rows[k].iv.start < rows[k].iv.end)
            && (forall j, k :: 0 <= j < k < |rows| ==> rows[j].id != rows[k].id)
  {
    RunKeepsInv(shop, db, reqs, evs);
    var s := RunTo(shop, InitialState(db, reqs), evs).value;
    assert forall j, k :: 0 <= j < k < |s.db.rows| ==> Apart(s.db.rows[j], s.db.rows[k]);
    forall k | 0 <= k < |s.db.rows|
      ensures QualifiedAndLocal(shop, s.db.rows[k])
      ensures s.db.rows[k].customer in shop.customers && s.db.rows[k].iv.start < s.db.rows[k].iv.end
    {
      assert RowOk(shop, s.db.rows[k]);
    }
  }

  /** Every stored record either points to an existing appointment of exactly its payload, or carries
      the code of a durable refusal: CONTENTION is never stored. */
  lemma RecordsAlwaysConsistent(shop: Shop, db: Db, reqs: seq<Request>, evs: seq<Event>, k: (Id, Key))
    requires ShopOk(shop) && DbOk(shop, db) && RunTo(shop, InitialState(db, reqs), evs).Some?
    requires k in RunTo(shop, InitialState(db, reqs), evs).value.db.records
    ensures var now := RunTo(shop, InitialState(db, reqs), evs).value.db;
            var rec := now.records[k];
            && rec.fingerprint.dealership == k.0
            && (rec.appointment.Some? <==> rec.errorCode.None?)
            && (rec.appointment.Some? ==>
                  exists n :: 0 <= n < |now.rows| && now.rows[n].id == rec.appointment.value
                              && RowOfRequest(rec.fingerprint, now.rows[n]))
            && (rec.appointment.None? ==> rec.errorCode == Some(NoAvailableResource)
                                          || rec.errorCode == Some(VehicleAlreadyBooked))
  {
    RunKeepsInv(shop, db, reqs, evs);
    var now := RunTo(shop, InitialState(db, reqs), evs).value.db;
    assert RecordOk(now.rows, k.0, now.records[k]);
  }

  predicate SameKey(a: Request, b: Request) {
    a.key.Some? && a.key == b.key && a.dealership == b.dealership
  }

  /** Once written, a key's expiry never goes back. */
  lemma {:induction false} ExpiryGrows(records: map<(Id, Key), Record>, log: seq<Entry>, a: nat, n: nat)
    requires a < n <= |log| && log[a].record.Some? && log[a].req.key.Some?
    requires EntriesOk(records, log)
    ensures var kk := (log[a].req.dealership, log[a].req.key.value);
            var now := RecordsAfter(records, log[..n]);
            kk in now && now[kk].expires >= log[a].req.now + RETENTION
    decreases n
  {
    var kk := (log[a].req.dealership, log[a].req.key.value);
    var e := log[n - 1];
    assert log[..n][..n - 1] == log[..n - 1];
    EntryAt(records, log, n - 1);
    if a == n - 1 {
    } else {
      ExpiryGrows(records, log, a, n - 1);
    }
  }

  /** Two committed bookings that both recorded an outcome under one key read clocks at least 24
      hours apart, and the stored expiry moved strictly forward, even if clocks are not monotone. */
  lemma KeySeparation(shop: Shop, db: Db, reqs: seq<Request>, evs: seq<Event>, a: nat, b: nat)
    requires ShopOk(shop) && DbOk(shop, db) && RunTo(shop, InitialState(db, reqs), evs).Some?
    requires var log := RunTo(shop, InitialState(db, reqs), evs).value.log;
             a < b < |log| && SameKey(log[a].req, log[b].req) && log[a].record.Some? && log[b].record.Some?
    ensures var log := RunTo(shop, InitialState(db, reqs), evs).value.log;
            && log[a].req.now + DAY <= log[b].req.now
            && log[a].record.value.expires < log[b].record.value.expires
  {
    RunKeepsHistory(shop, db, reqs, evs);
    var log := RunTo(shop, InitialState(db, reqs), evs).value.log;
    ExpiryGrows(db.records, log, a, b);
    EntryAt(db.records, log, a);
    EntryAt(db.records, log, b);
  }

  /** a is the last transaction before b that recorded an outcome under b's key. */
  ghost predicate LastWriter(log: seq<Entry>, a: nat, b: nat)
    requires a < b < |log|
  {
    && SameKey(log[a].req, log[b].req) && log[a].record.Some?
    && forall c :: a < c < b && SameKey(log[c].req, log[b].req) ==> log[c].record.None?
  }

  lemma {:induction false} RecordStays(records: map<(Id, Key), Record>, log: seq<Entry>, a: nat, b: nat, n: nat)
    requires a < n <= b < |log| && LastWriter(log, a, b)
    ensures var kk := (log[a].req.dealership, log[a].req.key.value);
            var now := RecordsAfter(records, log[..n]);
            kk in now && now[kk] == log[a].record.value
    decreases n
  {
    assert log[..n][..n - 1] == log[..n - 1];
    if a == n - 1 {
    } else {
      RecordStays(records, log, a, b, n - 1);
    }
  }

  predicate SamePayload(a: Request, b: Request) {
    a.dealership == b.dealership && a.vehicle == b.vehicle && a.service == b.service && a.start == b.start
  }

  /** A later request under the key gets the last recorded outcome again and writes nothing, exactly
      as long as that record has not expired for its clock reading; another payload gets KEY_REUSED.
      Once it has expired the request is decided afresh, and recorded unless it met contention. */
  lemma ReplayFollowsLastWriter(shop: Shop, db: Db, reqs: seq<Request>, evs: seq<Event>, a: nat, b: nat)
    requires ShopOk(shop) && DbOk(shop, db) && RunTo(shop, InitialState(db, reqs), evs).Some?
    requires var log := RunTo(shop, InitialState(db, reqs), evs).value.log; a < b < |log| && LastWriter(log, a, b)
    ensures var log := RunTo(shop, InitialState(db, reqs), evs).value.log;
            var first, later := log[a], log[b];
            if later.req.now < first.req.now + DAY then
              && later.row == None && later.record == None
              && (if SamePayload(first.req, later.req) then
                    match first.outcome
                    case Booked(row) => later.outcome.Booked? && later.outcome.row.id == row.id
                    case Rejected(e) => later.outcome == Rejected(e)
                  else later.outcome == Rejected(DomainError(IdempotencyKeyReused, [])))
            else
              later.outcome == CONTENDED || later.record == Some(RecordOf(later.req, later.outcome))
  {
    RunKeepsHistory(shop, db, reqs, evs);
    var log := RunTo(shop, InitialState(db, reqs), evs).value.log;
    EntryAt(db.records, log, a);
    EntryAt(db.records, log, b);
    RecordStays(db.records, log, a, b, b);
  }

  /** Whatever was recorded in between, a request whose clock reading precedes the expiry of any
      earlier record under its key writes nothing. */
  lemma NoWriteBeforeExpiry(shop: Shop, db: Db, reqs: seq<Request>, evs: seq<Event>, a: nat, b: nat)
    requires ShopOk(shop) && DbOk(shop, db) && RunTo(shop, InitialState(db, reqs), evs).Some?
    requires var log := RunTo(shop, InitialState(db, reqs), evs).value.log;
             a < b < |log| && SameKey(log[a].req, log[b].req) && log[a].record.Some?
               && log[b].req.now < log[a].req.now + DAY
    ensures var log := RunTo(shop, InitialState(db, reqs), evs).value.log; log[b].row == None && log[b].record == None
  {
    RunKeepsHistory(shop, db, reqs, evs);
    var log := RunTo(shop, InitialState(db, reqs), evs).value.log;
    ExpiryGrows(db.records, log, a, b);
    EntryAt(db.records, log, b);
  }

  // ----- Where rows come from -----

  predicate SameAppointment(a: Row, b: Row) {
    a.(status := b.status) == b
  }

  /** The row was there at the beginning, was inserted by a foreign writer, or was published by the
      commit of a transaction. */
  ghost predicate HasAuthor(db: Db, evs: seq<Event>, log: seq<Entry>, n: nat, r: Row) {
    || (n < |db.rows| && SameAppointment(db.rows[n], r))
    || (exists k :: 0 <= k < |evs| && evs[k].Foreign? && SameAppointment(evs[k].row, r))
    || (exists k :: 0 <= k < |log| && log[k].row.Some? && SameAppointment(log[k].row.value, r))
  }

  lemma AuthorStays(db: Db, evs: seq<Event>, ev: Event, log: seq<Entry>, more: seq<Entry>, n: nat, r: Row, r': Row)
    requires HasAuthor(db, evs, log, n, r) && SameAppointment(r, r')
    ensures HasAuthor(db, evs + [ev], log + more, n, r')
  {
    if n < |db.rows| && SameAppointment(db.rows[n], r) {
    } else if k :| 0 <= k < |evs| && evs[k].Foreign? && SameAppointment(evs[k].row, r) {
      assert (evs + [ev])[k] == evs[k];
    } else {
      var k :| 0 <= k < |log| && log[k].row.Some? && SameAppointment(log[k].row.value, r);
      assert (log + more)[k] == log[k];
    }
  }

  lemma LogOnlyGrows(shop: Shop, s: State, ev: Event) returns (more: seq<Entry>)
    requires Enabled(shop, s, ev)
    ensures Apply(shop, s, ev).log == s.log + more
    ensures var rows, rows' := s.db.rows, Apply(shop, s, ev).db.rows;
            && |rows| <= |rows'| && (forall n :: 0 <= n < |rows| ==> SameAppointment(rows[n], rows'[n]))
            && (forall n :: |rows| <= n < |rows'| ==>
                  || (ev.Foreign? && rows'[n] == ev.row)
                  || (|more| == 1 && more[0].row == Some(rows'[n])))
  {
    if ev.Step? {
      if ev.action.Commit? {
        var t := s.txns[ev.i];
        more := [Entry(ev.i, t.req, t.phase.outcome, t.row, t.record)];
      } else {
        OnlyOwnTxnMoves(shop, s, ev.i, ev.action);
        more := [];
      }
    } else {
      more := [];
    }
  }

  lemma ApplyKeepsAuthors(shop: Shop, db: Db, evs: seq<Event>, s: State, ev: Event)
    requires Enabled(shop, s, ev) && forall n :: 0 <= n < |s.db.rows| ==> HasAuthor(db, evs, s.log, n, s.db.rows[n])
    ensures var s' := Apply(shop, s, ev);
            forall n :: 0 <= n < |s'.db.rows| ==> HasAuthor(db, evs + [ev], s'.log, n, s'.db.rows[n])
  {
    var s' := Apply(shop, s, ev);
    var more := LogOnlyGrows(shop, s, ev);
    forall n | 0 <= n < |s'.db.rows| ensures HasAuthor(db, evs + [ev], s'.log, n, s'.db.rows[n]) {
      if n < |s.db.rows| {
        AuthorStays(db, evs, ev, s.log, more, n, s.db.rows[n], s'.db.rows[n]);
      } else if ev.Foreign? {
        assert (evs + [ev])[|evs|] == ev;
      } else {
        assert s'.log[|s.log|] == more[0];
      }
    }
  }

  lemma {:induction false} RunKeepsAuthors(shop: Shop, db: Db, reqs: seq<Request>, evs: seq<Event>)
    requires RunTo(shop, InitialState(db, reqs), evs).Some?
    ensures var s := RunTo(shop, InitialState(db, reqs), evs).value;
            forall n :: 0 <= n < |s.db.rows| ==> HasAuthor(db, evs, s.log, n, s.db.rows[n])
  {
    if |evs| == 0 {
    } else {
      var n := |evs| - 1;
      RunKeepsAuthors(shop, db, reqs, evs[..n]);
      ApplyKeepsAuthors(shop, db, evs[..n], RunTo(shop, InitialState(db, reqs), evs[..n]).value, evs[n]);
      assert evs[..n] + [evs[n]] == evs;
    }
  }

  /** An aborted transaction leaves no trace: it is not in the commit history, every appointment comes
      from the beginning, from a foreign writer or from a committed transaction, and the idempotency
      table is exactly what the committed transactions have made of it. */
  lemma AbortedLeavesNoTrace(shop: Shop, db: Db, reqs: seq<Request>, evs: seq<Event>)
    requires ShopOk(shop) && DbOk(shop, db) && RunTo(shop, InitialState(db, reqs), evs).Some?
    ensures var s := RunTo(shop, InitialState(db, reqs), evs).value;
            && (forall k :: 0 <= k < |s.log| ==> s.log[k].tx < |s.txns| && !s.txns[s.log[k].tx].phase.Aborted?)
            && (forall n :: 0 <= n < |s.db.rows| ==> HasAuthor(db, evs, s.log, n, s.db.rows[n]))
            && s.db.records == RecordsAfter(db.records, s.log)
  {
    RunKeepsLog(shop, db, reqs, evs);
    RunKeepsAuthors(shop, db, reqs, evs);
    RunKeepsHistory(shop, db, reqs, evs);
  }
}
