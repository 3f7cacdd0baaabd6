/** Any number of booking transactions running side by side over one database, one statement at a
    time (scheduler.go Book, booking_tx.go, repository.go InTx). */
module Protocol {
  import opened Policy
  import opened Schema
  import opened Booking

  /** What a committed transaction left behind; kept only to talk about whole runs. */
  datatype Entry = Entry(tx: nat, req: Request, outcome: Outcome, row: Option<Row>, record: Option<Record>)

  /** Committed tables, advisory locks with their holders, the transactions, and the commit history. */
  datatype State = State(db: Db, locks: map<LockId, nat>, txns: seq<Txn>, log: seq<Entry>)

  /** One statement of a transaction. */
  datatype Action = Start | LockKey | Find | LockDay | Read | Insert(id: Id) | Lose | Recheck | Save | Commit | Abort

  /** One step of the system: a transaction acts, a writer that takes no lock inserts a row, or an
      appointment is cancelled. */
  datatype Event = Step(i: nat, action: Action) | Foreign(row: Row) | Cancel(k: nat)

  function KeyLockOf(shop: Shop, req: Request): LockId
    requires req.key.Some?
  {
    shop.keyLock(req.dealership, req.key.value)
  }

  function DayLockOf(shop: Shop, req: Request): LockId
    requires Check(shop, req).Ready?
  {
    shop.dayLock(req.dealership, Check(shop, req).plan.day)
  }

  /** Advisory locks are granted when free, and again to a transaction that already holds them. */
  predicate Grantable(locks: map<LockId, nat>, l: LockId, i: nat) {
    l in locks ==> locks[l] == i
  }

  function Release(locks: map<LockId, nat>, i: nat): map<LockId, nat> {
    map l | l in locks && locks[l] != i :: locks[l]
  }

  predicate Active(p: Phase) {
    !p.Idle? && !p.TurnedAway? && !p.Done? && !p.Aborted?
  }

  /** No committed row and no other transaction's uncommitted row uses the identifier. */
  ghost predicate FreshId(s: State, id: Id) {
    && (forall r :: r in s.db.rows ==> r.id != id)
    && (forall j :: 0 <= j < |s.txns| && s.txns[j].row.Some? ==> s.txns[j].row.value.id != id)
  }

  /** An exclusion constraint sets r against another transaction's uncommitted row. */
  ghost predicate MeetsPending(s: State, i: int, r: Row) {
    exists j :: 0 <= j < |s.txns| && j != i && s.txns[j].row.Some? && Violation([s.txns[j].row.value], r).Some?
  }

  function RowFor(shop: Shop, t: Txn, id: Id): Row
    requires t.phase.Inserting? && Check(shop, t.req).Ready?
  {
    NewRow(t.req, Check(shop, t.req).plan, t.phase.technician, t.phase.bay, id)
  }

  /** The phase of each statement that neither takes nor drops a lock nor touches the committed tables. */
  predicate Fits(shop: Shop, t: Txn, action: Action) {
    match action
    case Start => t.phase.Idle?
    case Read => t.phase.Reading? && Check(shop, t.req).Ready?
    case Insert(_) => t.phase.Inserting? && Check(shop, t.req).Ready?
    case Lose => t.phase.Inserting? && Check(shop, t.req).Ready?
    case Recheck => t.phase.Rechecking? && Check(shop, t.req).Ready?
    case Save => t.phase.Saving?
    case _ => false
  }

  /** What a local statement makes of its transaction, given the committed rows it sees. */
  function LocalNext(shop: Shop, rows: seq<Row>, t: Txn, action: Action): (n: Txn)
    requires Fits(shop, t, action)
    ensures n.req == t.req && PastDay(n.phase) == PastDay(t.phase)
    ensures n.row == if action.Insert? then Some(RowFor(shop, t, action.id)) else t.row
  {
    match action
    case Start => t.(phase := AfterCheck(shop, t.req))
    case Read => AfterRead(shop, Check(shop, t.req).plan, rows, t)
    case Insert(id) => AfterInsert(t, RowFor(shop, t, id))
    case Lose => AfterLoss(t)
    case Recheck => AfterRecheck(shop, Check(shop, t.req).plan, rows, t)
    case Save => AfterSave(t)
  }

  /** When a transaction's statement can be executed. An insert that meets another transaction's
      uncommitted row waits: Insert is not possible, but it may be chosen as a deadlock victim. */
  ghost predicate CanAct(shop: Shop, s: State, i: nat, action: Action)
    requires i < |s.txns|
  {
    var t := s.txns[i];
    match action
    case LockKey => t.phase.WantKey? && t.req.key.Some? && Grantable(s.locks, KeyLockOf(shop, t.req), i)
    case Find => t.phase.Finding?
    case LockDay => t.phase.WantDay? && Check(shop, t.req).Ready? && Grantable(s.locks, DayLockOf(shop, t.req), i)
    case Insert(id) =>
      && Fits(shop, t, action)
      && FreshId(s, id)
      && RowOk(shop, RowFor(shop, t, id))
      && Violation(s.db.rows, RowFor(shop, t, id)).None?
      && !MeetsPending(s, i, RowFor(shop, t, id))
    case Lose =>
      && Fits(shop, t, action)
      && (Violation(s.db.rows, RowFor(shop, t, 0)).Some? || MeetsPending(s, i, RowFor(shop, t, 0)))
    case Commit => t.phase.Committing?
    case Abort => Active(t.phase)
    case _ => Fits(shop, t, action)
  }

  ghost predicate Enabled(shop: Shop, s: State, ev: Event) {
    match ev
    case Step(i, action) => i < |s.txns| && CanAct(shop, s, i, action)
    case Foreign(row) =>
      RowOk(shop, row) && FreshId(s, row.id) && Violation(s.db.rows, row).None? && !MeetsPending(s, -1, row)
    case Cancel(k) => k < |s.db.rows|
  }

  function SetTxn(s: State, i: nat, t: Txn): State
    requires i < |s.txns|
  {
    s.(txns := s.txns[i := t])
  }

  /** Rolling back drops the transaction's writes and its locks. */
  function RollBack(s: State, i: nat): State
    requires i < |s.txns|
  {
    s.(txns := s.txns[i := Txn(s.txns[i].req, Aborted, None, None)], locks := Release(s.locks, i))
  }

  /** Committing publishes the transaction's writes and drops its locks. */
  function CommitTxn(s: State, i: nat): State
    requires i < |s.txns| && s.txns[i].phase.Committing?
  {
    var t := s.txns[i];
    State(Publish(s.db, t.req, t.row, t.record), Release(s.locks, i),
          s.txns[i := Txn(t.req, Done(t.phase.outcome), None, None)],
          s.log + [Entry(i, t.req, t.phase.outcome, t.row, t.record)])
  }

  ghost function Act(shop: Shop, s: State, i: nat, action: Action): State
    requires i < |s.txns| && CanAct(shop, s, i, action)
  {
    var t := s.txns[i];
    if Fits(shop, t, action) then SetTxn(s, i, LocalNext(shop, s.db.rows, t, action))
    else
      match action
      case LockKey => SetTxn(s, i, t.(phase := Finding)).(locks := s.locks[KeyLockOf(shop, t.req) := i])
      case Find => if AfterFind(s.db, t).phase.Aborted? then RollBack(s, i) else SetTxn(s, i, AfterFind(s.db, t))
      case LockDay =>
        SetTxn(s, i, t.(phase := Reading(0, shop.maxAttempts))).(locks := s.locks[DayLockOf(shop, t.req) := i])
      case Commit => CommitTxn(s, i)
      case Abort => RollBack(s, i)
  }

  ghost function Apply(shop: Shop, s: State, ev: Event): State
    requires Enabled(shop, s, ev)
  {
    match ev
    case Step(i, action) => Act(shop, s, i, action)
    case Foreign(row) => s.(db := s.db.(rows := s.db.rows + [row]))
    case Cancel(k) => s.(db := s.db.(rows := s.db.rows[k := s.db.rows[k].(status := Cancelled)]))
  }

  function InitialState(db: Db, reqs: seq<Request>): State {
    State(db, map[], seq(|reqs|, i requires 0 <= i < |reqs| => Txn(reqs[i], Idle, None, None)), [])
  }

  /** The state after a sequence of steps, if each of them could be taken. */
  ghost function RunTo(shop: Shop, s: State, evs: seq<Event>): Option<State> {
    if |evs| == 0 then Some(s)
    else
      var n := |evs| - 1;
      match RunTo(shop, s, evs[..n])
      case None => None
      case Some(m) => if Enabled(shop, m, evs[n]) then Some(Apply(shop, m, evs[n])) else None
  }

  lemma OneMore(shop: Shop, s: State, evs: seq<Event>, ev: Event)
    requires RunTo(shop, s, evs).Some? && Enabled(shop, RunTo(shop, s, evs).value, ev)
    ensures RunTo(shop, s, evs + [ev]) == Some(Apply(shop, RunTo(shop, s, evs).value, ev))
  {
    assert (evs + [ev])[..|evs|] == evs;
  }

  /** Only booking transactions act: no foreign writer, no cancellation. */
  ghost predicate BookingsOnly(evs: seq<Event>) {
    forall k :: 0 <= k < |evs| ==> evs[k].Step?
  }

  /** A booking takes one more step. */
  lemma Take(shop: Shop, init: State, evs: seq<Event>, s: State, i: nat, action: Action)
    returns (more: seq<Event>, s': State)
    requires BookingsOnly(evs) && RunTo(shop, init, evs) == Some(s) && i < |s.txns| && CanAct(shop, s, i, action)
    ensures BookingsOnly(more) && RunTo(shop, init, more) == Some(s') && s' == Act(shop, s, i, action)
  {
    more := evs + [Step(i, action)];
    OneMore(shop, init, evs, Step(i, action));
    s' := Act(shop, s, i, action);
  }
}
