/** The lock protocol cannot stop, whoever else writes: nobody waits in a circle unless lock identifiers
    coincide in a circle, and every run can finish. */
module Progress {
  import opened Policy
  import opened Schema
  import opened Booking
  import opened Protocol
  import opened Safety
  import opened Tables
  import opened Runs

  // ----- Lock cycles -----

  /** The request will take its key lock, look its key up without finding a live record, and go on to
      the day lock. */
  ghost predicate TakesBothLocks(shop: Shop, records: map<(Id, Key), Record>, req: Request) {
    req.key.Some? && Check(shop, req).Ready? && LiveRecord(records, req).None?
  }

  /** a's day lock has the identifier of b's key lock. */
  predicate Collides(shop: Shop, a: Request, b: Request) {
    Check(shop, a).Ready? && b.key.Some? && DayLockOf(shop, a) == KeyLockOf(shop, b)
  }

  /** Two or more requests with different key locks, each of whose day locks has the identifier of the
      next one's key lock, and the last one's that of the first. */
  ghost predicate LockCycle(shop: Shop, records: map<(Id, Key), Record>, reqs: seq<Request>, cycle: seq<nat>) {
    && |cycle| >= 2
    && (forall m :: 0 <= m < |cycle| ==> cycle[m] < |reqs| && TakesBothLocks(shop, records, reqs[cycle[m]]))
    && (forall m, n :: 0 <= m < n < |cycle| ==>
        cycle[m] != cycle[n] && KeyLockOf(shop, reqs[cycle[m]]) != KeyLockOf(shop, reqs[cycle[n]]))
    && (forall m, n :: 0 <= m < |cycle| && n == m + 1 < |cycle| ==> Collides(shop, reqs[cycle[m]], reqs[cycle[n]]))
    && Collides(shop, reqs[cycle[|cycle| - 1]], reqs[cycle[0]])
  }

  /** i cannot proceed until j ends: j holds the lock i asks for, or i's insert meets j's
      uncommitted row. */
  ghost predicate WaitsFor(shop: Shop, s: State, i: nat, j: nat) {
    && i < |s.txns| && j < |s.txns| && i != j
    && var t := s.txns[i];
       || (t.phase.WantKey? && t.req.key.Some? && Holds(s.locks, KeyLockOf(shop, t.req), j))
       || (t.phase.WantDay? && Check(shop, t.req).Ready? && Holds(s.locks, DayLockOf(shop, t.req), j))
       || (t.phase.Inserting? && Check(shop, t.req).Ready? && s.txns[j].row.Some?
           && Violation([s.txns[j].row.value], RowFor(shop, t, 0)).Some?)
  }

  /** Each transaction on the path waits for the next. */
  ghost predicate WaitPath(shop: Shop, s: State, path: seq<nat>) {
    |path| >= 2 && forall m, n :: 0 <= m < |path| && n == m + 1 < |path| ==> WaitsFor(shop, s, path[m], path[n])
  }

  /** Transactions waiting for each other in a circle. */
  ghost predicate WaitCycle(shop: Shop, s: State, path: seq<nat>) {
    WaitPath(shop, s, path) && path[0] == path[|path| - 1]
  }

  // ----- A wait cycle is a lock cycle -----

  /** Who waits has no uncommitted row. */
  lemma WaiterHasNoRow(shop: Shop, s: State, i: nat, j: nat)
    requires ShapesOk(shop, s) && WaitsFor(shop, s, i, j)
    ensures s.txns[i].row.None?
  {
    assert ShapeOk(shop, s.txns[i]);
  }

  /** In the middle of three in a row, j waits for its day lock and is waited for because of its key lock:
      nobody waits through an insert for somebody who waits. */
  lemma BetweenLocks(shop: Shop, s: State, i: nat, j: nat, k: nat, m: nat)
    requires ShapesOk(shop, s) && LocksOk(shop, s)
    requires WaitsFor(shop, s, i, j) && WaitsFor(shop, s, j, k) && WaitsFor(shop, s, k, m)
    ensures s.txns[j].phase.WantDay? && PastKey(s.txns[j]) && Check(shop, s.txns[j].req).Ready?
    ensures s.txns[i].phase.WantDay? ==> Collides(shop, s.txns[i].req, s.txns[j].req)
  {
    var t, u := s.txns[i], s.txns[j];
    assert ShapeOk(shop, u);
    WaiterHasNoRow(shop, s, j, k);
    WaiterHasNoRow(shop, s, k, m);
    if t.phase.WantKey? {
      assert Owns(shop, u, KeyLockOf(shop, t.req));
    } else {
      assert Owns(shop, u, DayLockOf(shop, t.req));
    }
  }

  lemma SubPath(shop: Shop, s: State, path: seq<nat>, a: nat, b: nat)
    requires WaitPath(shop, s, path) && a < b < |path|
    ensures WaitPath(shop, s, path[a..b + 1])
  {
    var sub := path[a..b + 1];
    forall m, n | 0 <= m < |sub| && n == m + 1 < |sub| ensures WaitsFor(shop, s, sub[m], sub[n]) {
      assert sub[m] == path[a + m] && sub[n] == path[a + n];
    }
  }

  /** A circle that passes somebody twice contains a shorter one. */
  lemma {:induction false} Shorten(shop: Shop, s: State, path: seq<nat>) returns (simple: seq<nat>)
    requires WaitCycle(shop, s, path)
    ensures WaitCycle(shop, s, simple) && forall m, n :: 0 <= m < n < |simple| - 1 ==> simple[m] != simple[n]
    decreases |path|
  {
    if a, b :| 0 <= a < b < |path| - 1 && path[a] == path[b] {
      SubPath(shop, s, path, a, b);
      simple := Shorten(shop, s, path[a..b + 1]);
    } else {
      simple := path;
    }
  }

  lemma CycleMember(shop: Shop, s: State, path: seq<nat>, m: nat) returns (i: nat, k: nat, l: nat)
    requires WaitCycle(shop, s, path) && m < |path|
    ensures WaitsFor(shop, s, i, path[m]) && WaitsFor(shop, s, path[m], k) && WaitsFor(shop, s, k, l)
    ensures m + 1 < |path| ==> k == path[m + 1]
  {
    var last := |path| - 1;
    var next := if m < last then m + 1 else 1;
    i := path[if m > 0 then m - 1 else last - 1];
    k := path[next];
    l := path[if next < last then next + 1 else 1];
  }

  /** On a circle everybody waits for the day lock and holds the key lock the one before asks for. */
  lemma CycleBetweenLocks(shop: Shop, s: State, path: seq<nat>)
    requires ShapesOk(shop, s) && LocksOk(shop, s) && WaitCycle(shop, s, path)
    ensures forall m :: 0 <= m < |path| ==> path[m] < |s.txns| && s.txns[path[m]].phase.WantDay?
                                            && PastKey(s.txns[path[m]])
    ensures forall m, n :: 0 <= m < |path| && n == m + 1 < |path| ==>
              Collides(shop, s.txns[path[m]].req, s.txns[path[n]].req)
  {
    forall m | 0 <= m < |path|
      ensures path[m] < |s.txns| && s.txns[path[m]].phase.WantDay? && PastKey(s.txns[path[m]])
    {
      var i, k, l := CycleMember(shop, s, path, m);
      BetweenLocks(shop, s, i, path[m], k, l);
    }
    forall m, n | 0 <= m < |path| && n == m + 1 < |path|
      ensures Collides(shop, s.txns[path[m]].req, s.txns[path[n]].req)
    {
      var i, k, l := CycleMember(shop, s, path, n);
      BetweenLocks(shop, s, path[m], path[n], k, l);
    }
  }

  /** The transactions carry these requests, and whoever wants a day lock had no live record at first. */
  ghost predicate Rooted(records: map<(Id, Key), Record>, reqs: seq<Request>, s: State) {
    && |s.txns| == |reqs|
    && forall i :: 0 <= i < |reqs| ==>
         s.txns[i].req == reqs[i] && (s.txns[i].phase.WantDay? ==> LiveRecord(records, reqs[i]).None?)
  }

  lemma RunIsRooted(shop: Shop, db: Db, reqs: seq<Request>, evs: seq<Event>)
    requires ShopOk(shop) && DbOk(shop, db) && RunTo(shop, InitialState(db, reqs), evs).Some?
    ensures Rooted(db.records, reqs, RunTo(shop, InitialState(db, reqs), evs).value)
  {
    RunKeepsRequests(shop, db, reqs, evs);
    RunKeepsInv(shop, db, reqs, evs);
    RunKeepsHistory(shop, db, reqs, evs);
    var s := RunTo(shop, InitialState(db, reqs), evs).value;
    forall i | 0 <= i < |reqs| && s.txns[i].phase.WantDay? ensures LiveRecord(db.records, reqs[i]).None? {
      assert KeyOk(s.db.records, s.txns[i]);
      if LiveRecord(db.records, reqs[i]).Some? {
        LiveStaysLive(db.records, s.log, reqs[i]);
      }
    }
  }

  lemma KeyLocksDiffer(shop: Shop, s: State, i: nat, j: nat)
    requires LocksOk(shop, s) && i < |s.txns| && j < |s.txns| && i != j && PastKey(s.txns[i]) && PastKey(s.txns[j])
    ensures KeyLockOf(shop, s.txns[i].req) != KeyLockOf(shop, s.txns[j].req)
  {
    assert Owns(shop, s.txns[i], KeyLockOf(shop, s.txns[i].req))
           && Owns(shop, s.txns[j], KeyLockOf(shop, s.txns[j].req));
  }

  /** Transactions that hold their key locks and wait for day locks held by the next, all of them
      different, make a lock cycle. */
  lemma HoldersMakeCycle(shop: Shop, records: map<(Id, Key), Record>, reqs: seq<Request>, s: State, cycle: seq<nat>)
    requires LocksOk(shop, s) && Rooted(records, reqs, s) && |cycle| >= 2
    requires forall m :: 0 <= m < |cycle| ==>
               cycle[m] < |s.txns| && s.txns[cycle[m]].phase.WantDay? && PastKey(s.txns[cycle[m]])
    requires forall m, n :: 0 <= m < n < |cycle| ==> cycle[m] != cycle[n]
    requires forall m, n :: 0 <= m < |cycle| && n == m + 1 < |cycle| ==>
               Collides(shop, s.txns[cycle[m]].req, s.txns[cycle[n]].req)
    requires Collides(shop, s.txns[cycle[|cycle| - 1]].req, s.txns[cycle[0]].req)
    ensures LockCycle(shop, records, reqs, cycle)
  {
    forall m | 0 <= m < |cycle| ensures TakesBothLocks(shop, records, reqs[cycle[m]]) {
      if m + 1 < |cycle| {
        assert Collides(shop, s.txns[cycle[m]].req, s.txns[cycle[m + 1]].req);
      }
    }
    forall m, n | 0 <= m < n < |cycle| ensures KeyLockOf(shop, reqs[cycle[m]]) != KeyLockOf(shop, reqs[cycle[n]]) {
      KeyLocksDiffer(shop, s, cycle[m], cycle[n]);
    }
  }

  /** Whenever transactions wait for each other in a circle, in whatever company of foreign writers and
      cancellations, their requests contain a lock cycle. */
  lemma WaitCycleIsLockCycle(shop: Shop, db: Db, reqs: seq<Request>, evs: seq<Event>, path: seq<nat>)
    returns (cycle: seq<nat>)
    requires ShopOk(shop) && DbOk(shop, db) && RunTo(shop, InitialState(db, reqs), evs).Some?
    requires WaitCycle(shop, RunTo(shop, InitialState(db, reqs), evs).value, path)
    ensures LockCycle(shop, db.records, reqs, cycle)
  {
    RunKeepsInv(shop, db, reqs, evs);
    RunIsRooted(shop, db, reqs, evs);
    var s := RunTo(shop, InitialState(db, reqs), evs).value;
    var simple := Shorten(shop, s, path);
    CycleBetweenLocks(shop, s, simple);
    cycle := simple[..|simple| - 1];
    SimpleCycle(shop, s, simple, cycle);
    HoldersMakeCycle(shop, db.records, reqs, s, cycle);
  }

  lemma SimpleCycle(shop: Shop, s: State, simple: seq<nat>, cycle: seq<nat>)
    requires WaitCycle(shop, s, simple) && cycle == simple[..|simple| - 1]
    requires forall m :: 0 <= m < |simple| ==> simple[m] < |s.txns|
    requires forall m, n :: 0 <= m < |simple| && n == m + 1 < |simple| ==>
               Collides(shop, s.txns[simple[m]].req, s.txns[simple[n]].req)
    ensures |cycle| >= 2 && Collides(shop, s.txns[cycle[|cycle| - 1]].req, s.txns[cycle[0]].req)
  {
    assert WaitsFor(shop, s, simple[0], simple[1]);
    assert simple[|simple| - 1] == cycle[0] && simple[|simple| - 2] == cycle[|cycle| - 1];
  }

  /** Without a lock cycle among the requests no reachable state has transactions waiting in a circle. */
  lemma NoWaitCycle(shop: Shop, db: Db, reqs: seq<Request>, evs: seq<Event>, path: seq<nat>)
    requires ShopOk(shop) && DbOk(shop, db) && RunTo(shop, InitialState(db, reqs), evs).Some?
    requires forall cycle :: !LockCycle(shop, db.records, reqs, cycle)
    ensures !WaitCycle(shop, RunTo(shop, InitialState(db, reqs), evs).value, path)
  {
    if WaitCycle(shop, RunTo(shop, InitialState(db, reqs), evs).value, path) {
      var cycle := WaitCycleIsLockCycle(shop, db, reqs, evs, path);
    }
  }

  predicate Finished(t: Txn) {
    t.phase.Done? || t.phase.TurnedAway? || t.phase.Aborted?
  }

  lemma {:induction false} BoundOnIds(rows: seq<Row>, txns: seq<Txn>) returns (id: Id)
    ensures forall k :: 0 <= k < |rows| ==> rows[k].id < id
    ensures forall i :: 0 <= i < |txns| && txns[i].row.Some? ==> txns[i].row.value.id < id
  {
    if |rows| > 0 {
      var n := |rows| - 1;
      var below := BoundOnIds(rows[..n], txns);
      id := Max(below, rows[n].id + 1);
    } else if |txns| > 0 {
      var n := |txns| - 1;
      var below := BoundOnIds(rows, txns[..n]);
      id := if txns[n].row.Some? then Max(below, txns[n].row.value.id + 1) else below;
    } else {
      id := 0;
    }
  }

  /** A step that nobody has to force: not an abort, and an insert loses to a committed row only. */
  ghost predicate Unforced(shop: Shop, s: State, i: nat, action: Action)
    requires i < |s.txns|
  {
    && CanAct(shop, s, i, action) && !action.Abort?
    && (action.Lose? ==> Violation(s.db.rows, RowFor(shop, s.txns[i], 0)).Some?)
  }

  lemma RowForAnyId(shop: Shop, t: Txn, rows: seq<Row>, id: Id)
    requires t.phase.Inserting? && Check(shop, t.req).Ready?
    ensures Violation(rows, RowFor(shop, t, id)) == Violation(rows, RowFor(shop, t, 0))
  {
    forall o, c ensures Excludes(c, RowFor(shop, t, id), o) == Excludes(c, RowFor(shop, t, 0), o) {
    }
  }

  /** Whoever has an uncommitted row only has to save its record or to commit. */
  lemma OwnerActs(shop: Shop, s: State, k: nat) returns (action: Action)
    requires k < |s.txns| && ShapeOk(shop, s.txns[k]) && s.txns[k].row.Some?
    ensures Unforced(shop, s, k, action)
  {
    action := if s.txns[k].phase.Saving? then Save else Commit;
  }

  lemma InsertAccepted(shop: Shop, s: State, i: nat, id: Id)
    requires i < |s.txns| && s.txns[i].phase.Inserting? && ShapeOk(shop, s.txns[i]) && FreshId(s, id)
    requires Violation(s.db.rows, RowFor(shop, s.txns[i], 0)).None? && !MeetsPending(s, i, RowFor(shop, s.txns[i], id))
    ensures Unforced(shop, s, i, Insert(id))
  {
    assert RowOk(shop, RowFor(shop, s.txns[i], id));
    RowForAnyId(shop, s.txns[i], s.db.rows, id);
  }

  /** An insert is accepted, or loses to a committed row, or meets an uncommitted one, whose owner can act. */
  lemma InserterActs(shop: Shop, s: State, i: nat) returns (j: nat, action: Action)
    requires ShapesOk(shop, s) && i < |s.txns| && s.txns[i].phase.Inserting?
    ensures j < |s.txns| && Unforced(shop, s, j, action)
  {
    assert ShapeOk(shop, s.txns[i]);
    var id := BoundOnIds(s.db.rows, s.txns);
    assert FreshId(s, id);
    if Violation(s.db.rows, RowFor(shop, s.txns[i], 0)).Some? {
      j, action := i, Lose;
    } else if MeetsPending(s, i, RowFor(shop, s.txns[i], id)) {
      j :| 0 <= j < |s.txns| && s.txns[j].row.Some?;
      action := OwnerActs(shop, s, j);
    } else {
      InsertAccepted(shop, s, i, id);
      j, action := i, Insert(id);
    }
  }

  /** The transaction is not waiting for a lock, so its next statement can be executed, or that of the
      transaction whose uncommitted row it has met. */
  lemma UnblockedActs(shop: Shop, s: State, i: nat) returns (j: nat, action: Action)
    requires ShapesOk(shop, s) && i < |s.txns| && !Finished(s.txns[i]) && !s.txns[i].phase.WantKey?
             && !s.txns[i].phase.WantDay?
    ensures j < |s.txns| && Unforced(shop, s, j, action)
  {
    var t := s.txns[i];
    assert ShapeOk(shop, t);
    if t.phase.Inserting? {
      j, action := InserterActs(shop, s, i);
    } else {
      j := i;
      action := match t.phase
        case Idle => Start
        case Finding => Find
        case Reading(_, _) => Read
        case Rechecking => Recheck
        case Saving(_) => Save
        case _ => Commit;
    }
  }

  lemma KeyHolderIsPastKey(shop: Shop, s: State, i: nat) returns (j: nat)
    requires LocksOk(shop, s)
    requires i < |s.txns| && s.txns[i].phase.WantKey? && s.txns[i].req.key.Some? && !CanAct(shop, s, i, LockKey)
    ensures j < |s.txns| && (PastKey(s.txns[j]) || PastDay(s.txns[j].phase))
  {
    var l := KeyLockOf(shop, s.txns[i].req);
    j := s.locks[l];
    assert Owns(shop, s.txns[j], l);
  }

  /** A day lock that is not free is held by somebody past the day lock, or is somebody's key lock. */
  lemma DayHolder(shop: Shop, s: State, i: nat) returns (j: nat)
    requires LocksOk(shop, s)
    requires i < |s.txns| && s.txns[i].phase.WantDay? && Check(shop, s.txns[i].req).Ready?
             && !CanAct(shop, s, i, LockDay)
    ensures j < |s.txns| && j != i
    ensures PastDay(s.txns[j].phase) || (PastKey(s.txns[j]) && Collides(shop, s.txns[i].req, s.txns[j].req))
  {
    var l := DayLockOf(shop, s.txns[i].req);
    j := s.locks[l];
    assert Owns(shop, s.txns[j], l);
  }

  /** Transactions that all want day locks; each asks for the key lock that the next one holds. */
  ghost predicate Chain(shop: Shop, s: State, chain: seq<nat>) {
    && |chain| >= 1
    && (forall m :: 0 <= m < |chain| ==> chain[m] < |s.txns| && s.txns[chain[m]].phase.WantDay?
                                         && PastKey(s.txns[chain[m]]))
    && (forall m, n :: 0 <= m < n < |chain| ==> chain[m] != chain[n])
    && (forall m, n :: 0 <= m < |chain| && n == m + 1 < |chain| ==>
        Collides(shop, s.txns[chain[m]].req, s.txns[chain[n]].req))
  }

  lemma {:induction false} DistinctBounded(chain: seq<nat>, bound: nat)
    requires forall m :: 0 <= m < |chain| ==> chain[m] < bound
    requires forall m, n :: 0 <= m < n < |chain| ==> chain[m] != chain[n]
    ensures |chain| <= bound
    decreases bound
  {
    if |chain| == 0 {
      return;
    }
    assert chain[0] < bound;
    if k :| 0 <= k < |chain| && chain[k] == bound - 1 {
      DistinctBounded(chain[..k] + chain[k + 1..], bound - 1);
    } else {
      DistinctBounded(chain, bound - 1);
    }
  }

  /** The chain closes on itself. */
  lemma ClosedChain(shop: Shop, records: map<(Id, Key), Record>, reqs: seq<Request>, s: State, chain: seq<nat>, k: nat)
    requires LocksOk(shop, s) && Rooted(records, reqs, s) && Chain(shop, s, chain) && k + 1 < |chain|
    requires Collides(shop, s.txns[chain[|chain| - 1]].req, s.txns[chain[k]].req)
    ensures LockCycle(shop, records, reqs, chain[k..])
  {
    var cycle := chain[k..];
    forall m, n | 0 <= m < |cycle| && n == m + 1 < |cycle|
      ensures Collides(shop, s.txns[cycle[m]].req, s.txns[cycle[n]].req)
    {
      assert cycle[m] == chain[k + m] && cycle[n] == chain[k + n];
    }
    HoldersMakeCycle(shop, records, reqs, s, cycle);
  }

  lemma LongerChain(shop: Shop, records: map<(Id, Key), Record>, reqs: seq<Request>, s: State, chain: seq<nat>, j: nat)
    requires LocksOk(shop, s) && Rooted(records, reqs, s) && Chain(shop, s, chain)
    requires forall cycle :: !LockCycle(shop, records, reqs, cycle)
    requires j < |s.txns| && j != chain[|chain| - 1] && s.txns[j].phase.WantDay? && PastKey(s.txns[j])
    requires Collides(shop, s.txns[chain[|chain| - 1]].req, s.txns[j].req)
    ensures Chain(shop, s, chain + [j]) && |chain| < |s.txns|
  {
    if k :| 0 <= k < |chain| && chain[k] == j {
      ClosedChain(shop, records, reqs, s, chain, k);
    }
    DistinctBounded(chain + [j], |s.txns|);
  }

  /** Following the chain of those who hold the lock asked for leads to somebody who can act. */
  lemma {:induction false} EndOfChain(shop: Shop, records: map<(Id, Key), Record>, reqs: seq<Request>, s: State,
                                      chain: seq<nat>)
    returns (j: nat, action: Action)
    requires ShapesOk(shop, s) && LocksOk(shop, s) && Rooted(records, reqs, s) && Chain(shop, s, chain)
    requires forall cycle :: !LockCycle(shop, records, reqs, cycle)
    ensures j < |s.txns| && Unforced(shop, s, j, action)
    decreases |s.txns| - |chain|
  {
    var i := chain[|chain| - 1];
    assert ShapeOk(shop, s.txns[i]);
    if CanAct(shop, s, i, LockDay) { return i, LockDay; }
    j := DayHolder(shop, s, i);
    if s.txns[j].phase.WantDay? {
      LongerChain(shop, records, reqs, s, chain, j);
      j, action := EndOfChain(shop, records, reqs, s, chain + [j]);
    } else {
      j, action := UnblockedActs(shop, s, j);
    }
  }

  /** As long as some transaction is unfinished, some transaction can take a step that is not forced. */
  lemma SomeoneCanAct(shop: Shop, records: map<(Id, Key), Record>, reqs: seq<Request>, s: State, i: nat)
    returns (j: nat, action: Action)
    requires i < |s.txns| && !Finished(s.txns[i])
    requires ShapesOk(shop, s) && LocksOk(shop, s) && Rooted(records, reqs, s)
    requires forall cycle :: !LockCycle(shop, records, reqs, cycle)
    ensures j < |s.txns| && Unforced(shop, s, j, action)
  {
    j := i;
    if s.txns[j].phase.WantKey? {
      assert ShapeOk(shop, s.txns[j]);
      if CanAct(shop, s, j, LockKey) { return j, LockKey; }
      j := KeyHolderIsPastKey(shop, s, j);
    }
    j, action := PastTheKey(shop, records, reqs, s, j);
  }

  lemma PastTheKey(shop: Shop, records: map<(Id, Key), Record>, reqs: seq<Request>, s: State, i: nat)
    returns (j: nat, action: Action)
    requires i < |s.txns| && !Finished(s.txns[i]) && !s.txns[i].phase.WantKey?
    requires ShapesOk(shop, s) && LocksOk(shop, s) && Rooted(records, reqs, s)
    requires forall cycle :: !LockCycle(shop, records, reqs, cycle)
    ensures j < |s.txns| && Unforced(shop, s, j, action)
  {
    j := i;
    if s.txns[j].phase.WantDay? {
      assert ShapeOk(shop, s.txns[j]);
      if CanAct(shop, s, j, LockDay) { return j, LockDay; }
      j := DayHolder(shop, s, j);
    }
    if s.txns[j].phase.WantDay? {
      j, action := EndOfChain(shop, records, reqs, s, [j]);
    } else {
      j, action := UnblockedActs(shop, s, j);
    }
  }

  // ----- Every step uses up work -----

  function TotalRemaining(shop: Shop, txns: seq<Txn>): nat {
    if |txns| == 0 then 0 else TotalRemaining(shop, txns[..|txns| - 1]) + Remaining(shop, txns[|txns| - 1].phase)
  }

  lemma {:induction false} TotalAfterUpdate(shop: Shop, txns: seq<Txn>, i: nat, t: Txn)
    requires i < |txns|
    ensures TotalRemaining(shop, txns[i := t])
            == TotalRemaining(shop, txns) - Remaining(shop, txns[i].phase) + Remaining(shop, t.phase)
  {
    var n := |txns| - 1;
    if i < n {
      TotalAfterUpdate(shop, txns[..n], i, t);
      assert txns[i := t][..n] == txns[..n][i := t];
    } else {
      assert txns[i := t][..n] == txns[..n];
    }
  }

  lemma LocalAdvances(shop: Shop, rows: seq<Row>, t: Txn, action: Action)
    requires Fits(shop, t, action)
    ensures Remaining(shop, LocalNext(shop, rows, t, action).phase) < Remaining(shop, t.phase)
  {
    if action.Read? {
      ReadingAdvances(shop, Check(shop, t.req).plan, rows, t);
    } else if !action.Recheck? {
      OtherLocalAdvances(shop, rows, t, action);
    } else {
      RecheckAdvances(shop, rows, t);
    }
  }

  lemma RecheckAdvances(shop: Shop, rows: seq<Row>, t: Txn)
    requires Fits(shop, t, Recheck)
    ensures Remaining(shop, LocalNext(shop, rows, t, Recheck).phase) < Remaining(shop, t.phase)
  {
    var n := AfterRecheck(shop, Check(shop, t.req).plan, rows, t);
    assert n.phase.Saving? || n.phase.Committing?;
  }

  lemma OtherLocalAdvances(shop: Shop, rows: seq<Row>, t: Txn, action: Action)
    requires Fits(shop, t, action) && !action.Read? && !action.Recheck?
    ensures Remaining(shop, LocalNext(shop, rows, t, action).phase) < Remaining(shop, t.phase)
  {
  }

  /** Each statement of a booking leaves strictly less to do, whatever the others have written. */
  lemma StepAdvances(shop: Shop, s: State, i: nat, action: Action)
    requires i < |s.txns| && CanAct(shop, s, i, action)
    ensures TotalRemaining(shop, Act(shop, s, i, action).txns) < TotalRemaining(shop, s.txns)
  {
    var t, s' := s.txns[i], Act(shop, s, i, action);
    if Fits(shop, t, action) {
      LocalAdvances(shop, s.db.rows, t, action);
    }
    assert s'.txns == s.txns[i := s'.txns[i]];
    assert Remaining(shop, s'.txns[i].phase) < Remaining(shop, t.phase);
    TotalAfterUpdate(shop, s.txns, i, s'.txns[i]);
  }

  /** Event k of the run is an unforced step of a booking. */
  ghost predicate UnforcedAt(shop: Shop, init: State, evs: seq<Event>, k: nat)
    requires k < |evs|
  {
    var before := RunTo(shop, init, evs[..k]);
    before.Some? && evs[k].Step? && evs[k].i < |before.value.txns|
      && Unforced(shop, before.value, evs[k].i, evs[k].action)
  }

  ghost predicate UnforcedFrom(shop: Shop, init: State, evs: seq<Event>, n: nat) {
    forall k :: n <= k < |evs| ==> UnforcedAt(shop, init, evs, k)
  }

  lemma UnforcedStays(shop: Shop, init: State, evs: seq<Event>, more: seq<Event>, k: nat)
    requires evs <= more && |evs| == k + 1 && UnforcedAt(shop, init, evs, k) && UnforcedFrom(shop, init, more, k + 1)
    ensures UnforcedFrom(shop, init, more, k)
  {
    assert evs[..k] == more[..k];
  }

  /** If someone is unfinished, the run can be extended by one step that leaves less to do. */
  lemma OneStepCloser(shop: Shop, db: Db, reqs: seq<Request>, evs: seq<Event>, i: nat) returns (next: seq<Event>)
    requires ShopOk(shop) && DbOk(shop, db) && RunTo(shop, InitialState(db, reqs), evs).Some?
    requires forall cycle :: !LockCycle(shop, db.records, reqs, cycle)
    requires var s := RunTo(shop, InitialState(db, reqs), evs).value; i < |s.txns| && !Finished(s.txns[i])
    ensures evs <= next && |next| == |evs| + 1 && RunTo(shop, InitialState(db, reqs), next).Some?
    ensures UnforcedAt(shop, InitialState(db, reqs), next, |evs|)
    ensures TotalRemaining(shop, RunTo(shop, InitialState(db, reqs), next).value.txns)
            < TotalRemaining(shop, RunTo(shop, InitialState(db, reqs), evs).value.txns)
  {
    RunKeepsInv(shop, db, reqs, evs);
    var s := RunTo(shop, InitialState(db, reqs), evs).value;
    RunIsRooted(shop, db, reqs, evs);
    var j, action := SomeoneCanAct(shop, db.records, reqs, s, i);
    StepAdvances(shop, s, j, action);
    next := evs + [Step(j, action)];
    OneMore(shop, InitialState(db, reqs), evs, Step(j, action));
    assert next[..|evs|] == evs;
  }

  /** From every state that bookings, foreign writers and cancellations can reach, the bookings can go on
      by themselves, aborting nobody and picking no deadlock victim, until every one has its result. */
  lemma {:induction false} EveryRunCanFinish(shop: Shop, db: Db, reqs: seq<Request>, evs: seq<Event>)
    returns (more: seq<Event>)
    requires ShopOk(shop) && DbOk(shop, db) && RunTo(shop, InitialState(db, reqs), evs).Some?
    requires forall cycle :: !LockCycle(shop, db.records, reqs, cycle)
    ensures evs <= more && RunTo(shop, InitialState(db, reqs), more).Some?
    ensures UnforcedFrom(shop, InitialState(db, reqs), more, |evs|)
    ensures forall t :: t in RunTo(shop, InitialState(db, reqs), more).value.txns ==> Finished(t)
    decreases TotalRemaining(shop, RunTo(shop, InitialState(db, reqs), evs).value.txns)
  {
    var s := RunTo(shop, InitialState(db, reqs), evs).value;
    if i :| 0 <= i < |s.txns| && !Finished(s.txns[i]) {
      var next := OneStepCloser(shop, db, reqs, evs, i);
      more := EveryRunCanFinish(shop, db, reqs, next);
      UnforcedStays(shop, InitialState(db, reqs), next, more, |evs|);
    } else {
      more := evs;
    }
  }

  function CountSteps(evs: seq<Event>): nat {
    if |evs| == 0 then 0 else CountSteps(evs[..|evs| - 1]) + if evs[|evs| - 1].Step? then 1 else 0
  }

  /** No run, whatever foreign writers and cancellations it contains, holds more statements of the
      bookings than the work they started with: nobody retries for ever. */
  lemma {:induction false} RunsAreBounded(shop: Shop, s: State, evs: seq<Event>)
    requires RunTo(shop, s, evs).Some?
    ensures CountSteps(evs) + TotalRemaining(shop, RunTo(shop, s, evs).value.txns) <= TotalRemaining(shop, s.txns)
  {
    if |evs| == 0 {
    } else {
      var n := |evs| - 1;
      RunsAreBounded(shop, s, evs[..n]);
      if evs[n].Step? {
        StepAdvances(shop, RunTo(shop, s, evs[..n]).value, evs[n].i, evs[n].action);
      }
    }
  }
}
