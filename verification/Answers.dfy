/** Every transaction that commits in a concurrent run has done what the service's Book does: alone in
    a world that shows, statement by statement, the tables of that run (scheduler.go Book). */
module Answers {
  import opened Policy
  import opened Schema
  import opened Booking
  import opened Protocol
  import opened Safety
  import opened Tables
  import opened Runs
  import opened Retry
  import opened Transaction
  import opened Service
  import opened Conformance

  /** What one statement of a transaction met: the number of its step in the run, the committed tables
      then, the id a new row got, and whether an uncommitted row of somebody else beat it. */
  datatype Sight = Sight(at: nat, db: Db, id: Id, deadlock: bool)

  /** What a step shows to transaction i. Finding a live record takes two statements, for the record and
      for its appointment; beginning and ending the transaction takes none. */
  ghost function SightsOf(shop: Shop, s: State, ev: Event, i: nat, at: nat): seq<Sight>
    requires Enabled(shop, s, ev)
  {
    if !ev.Step? || ev.i != i || ev.action.Start? || ev.action.Commit? || ev.action.Abort? then []
    else
      var sight := Sight(at, s.db, if ev.action.Insert? then ev.action.id else 0,
                         ev.action.Lose? && Violation(s.db.rows, RowFor(shop, s.txns[i], 0)).None?);
      if ev.action.Find? && LiveRecord(s.db.records, s.txns[i].req).Some? then [sight, sight] else [sight]
  }

  ghost function Sights(shop: Shop, init: State, evs: seq<Event>, i: nat): seq<Sight>
    requires RunTo(shop, init, evs).Some?
  {
    if |evs| == 0 then []
    else
      var n := |evs| - 1;
      Sights(shop, init, evs[..n], i) + SightsOf(shop, RunTo(shop, init, evs[..n]).value, evs[n], i, n)
  }

  /** The world of a run as one of its transactions met it; nothing fails. */
  function WorldOf(db: Db, sights: seq<Sight>): World {
    World((k: nat) => if k < |sights| then sights[k].db else db,
          (k: nat) => false,
          (k: nat) => k < |sights| && sights[k].deadlock,
          (k: nat) => if k < |sights| then sights[k].id else 0)
  }

  ghost predicate Shows(w: World, sights: seq<Sight>) {
    && (forall k: nat :: !w.fault(k))
    && forall k {:trigger sights[k]} :: 0 <= k < |sights| ==>
         w.tables(k) == sights[k].db && w.id(k) == sights[k].id && w.deadlock(k) == sights[k].deadlock
  }

  lemma SightMirrors(shop: Shop, s: State, i: nat, action: Action, at: nat, w: World, seen: seq<Sight>)
    requires i < |s.txns| && CanAct(shop, s, i, action) && !action.Start? && !action.Commit? && !action.Abort?
    requires Shows(w, seen + SightsOf(shop, s, Step(i, action), i, at))
    ensures Mirrors(shop, s, s.txns[i], action, w, |seen|)
  {
    var all, k := seen + SightsOf(shop, s, Step(i, action), i, at), |seen|;
    assert all[k].db == s.db;
    assert action.Find? && LiveRecord(s.db.records, s.txns[i].req).Some? ==> all[k + 1].db == s.db;
  }

  /** One statement of the run is one step of the service's machine, or two that find a stored outcome. */
  lemma StatementFollows(shop: Shop, s: State, i: nat, action: Action, at: nat, w: World, seen: seq<Sight>, o: Oracle)
    requires i < |s.txns| && CanAct(shop, s, i, action) && !action.Start? && !action.Commit? && !action.Abort?
    requires Check(shop, s.txns[i].req).Ready? && OracleOk(o) && Observes(o, shop, w, Check(shop, s.txns[i].req).plan)
    requires s.txns[i].phase.Finding? ==>
               s.txns[i].row == None && s.txns[i].record == None
                 && o.found(|seen|, s.txns[i]) == FindIn(w, |seen|, s.txns[i])
    requires Shows(w, seen + SightsOf(shop, s, Step(i, action), i, at))
    ensures var plan, k, m := Check(shop, s.txns[i].req).plan, |seen|, |SightsOf(shop, s, Step(i, action), i, at)|;
            RunUnder(shop.maxAttempts, o, plan, k, s.txns[i])
              == RunUnder(shop.maxAttempts, o, plan, k + m, Act(shop, s, i, action).txns[i])
  {
    SightMirrors(shop, s, i, action, at, w, seen);
    StatementsAgree(shop, s, i, action, w, |seen|, o);
  }

  /** How far transaction i has come, as a run of the service's machine under o. */
  ghost predicate Followed(shop: Shop, req: Request, o: Oracle, seen: nat, s: State, i: nat)
    requires OracleOk(o) && i < |s.txns| && Check(shop, req).Ready?
  {
    var t, plan, first := s.txns[i], Check(shop, req).plan, Txn(req, AfterCheck(shop, req), None, None);
    && t.req == req
    && (t.phase.Idle? || t.phase.WantKey? ==> seen == 0)
    && (t.phase.Finding? ==> seen == 1)
    && (Active(t.phase) ==> RunUnder(shop.maxAttempts, o, plan, 0, first)
                            == RunUnder(shop.maxAttempts, o, plan, seen, t))
    && forall n {:trigger s.log[n]} :: 0 <= n < |s.log| && s.log[n].tx == i ==>
         && s.log[n].req == req
         && Ending(RunUnder(shop.maxAttempts, o, plan, 0, first))
            == Answer(s.log[n].outcome, s.log[n].row, s.log[n].record)
  }

  /** A step of anybody else leaves transaction i and its entries as they are. */
  lemma OthersLeaveFollowed(shop: Shop, req: Request, s: State, ev: Event, i: nat, seen: nat, o: Oracle)
    requires Enabled(shop, s, ev) && i < |s.txns| && Check(shop, req).Ready? && OracleOk(o)
    requires (ev.Step? ==> ev.i != i) && Followed(shop, req, o, seen, s, i)
    ensures var s' := Apply(shop, s, ev); i < |s'.txns| && Followed(shop, req, o, seen, s', i)
  {
    if ev.Step? && !ev.action.Commit? {
      OnlyOwnTxnMoves(shop, s, ev.i, ev.action);
    }
  }

  lemma PhaseMoves(shop: Shop, s: State, i: nat, action: Action)
    requires i < |s.txns| && CanAct(shop, s, i, action) && ShapeOk(shop, s.txns[i]) && !action.Commit? && !action.Abort?
    ensures var t, t' := s.txns[i], Act(shop, s, i, action).txns[i];
            && t'.req == t.req && !t'.phase.Idle? && (t'.phase.WantKey? ==> action.Start?)
            && (t'.phase.Finding? ==> t.phase.WantKey? && action.LockKey?)
            && (action.Start? <==> t.phase.Idle?) && (!action.Start? ==> Active(t.phase))
            && (t.phase.Finding? ==> t == Txn(t.req, Finding, None, None))
            && (action.Start? ==> t' == Txn(t.req, AfterCheck(shop, t.req), None, None))
  {
  }

  /** Followed, once the transaction itself has moved. */
  lemma MovedFollows(shop: Shop, req: Request, s: State, s': State, i: nat, seen: nat, seen': nat, o: Oracle)
    requires OracleOk(o) && Check(shop, req).Ready? && i < |s.txns| && Followed(shop, req, o, seen, s, i)
    requires i < |s'.txns| && s'.log == s.log && s'.txns[i].req == req && Active(s.txns[i].phase)
    requires !s'.txns[i].phase.Idle? && !s'.txns[i].phase.WantKey? && (s'.txns[i].phase.Finding? ==> seen' == 1)
    requires RunUnder(shop.maxAttempts, o, Check(shop, req).plan, seen, s.txns[i])
             == RunUnder(shop.maxAttempts, o, Check(shop, req).plan, seen', s'.txns[i])
    ensures Followed(shop, req, o, seen', s', i)
  {
  }

  lemma StepFollows(shop: Shop, req: Request, s: State, action: Action, i: nat, at: nat, w: World, seen: seq<Sight>,
                    o: Oracle)
    requires i < |s.txns| && CanAct(shop, s, i, action) && ShapeOk(shop, s.txns[i]) && Check(shop, req).Ready?
    requires !action.Start? && !action.Commit? && !action.Abort?
    requires OracleOk(o) && Observes(o, shop, w, Check(shop, req).plan)
    requires o.found(1, Txn(req, Finding, None, None)) == FindIn(w, 1, Txn(req, Finding, None, None))
    requires Shows(w, seen + SightsOf(shop, s, Step(i, action), i, at)) && Followed(shop, req, o, |seen|, s, i)
    ensures var s' := Apply(shop, s, Step(i, action));
            i < |s'.txns| && Followed(shop, req, o, |seen + SightsOf(shop, s, Step(i, action), i, at)|, s', i)
  {
    OnlyOwnTxnMoves(shop, s, i, action);
    PhaseMoves(shop, s, i, action);
    StatementFollows(shop, s, i, action, at, w, seen, o);
    MovedFollows(shop, req, s, Act(shop, s, i, action), i, |seen|,
                 |seen| + |SightsOf(shop, s, Step(i, action), i, at)|, o);
  }

  lemma StartFollows(shop: Shop, req: Request, s: State, i: nat, seen: nat, o: Oracle)
    requires i < |s.txns| && CanAct(shop, s, i, Start) && Check(shop, req).Ready?
    requires OracleOk(o) && Followed(shop, req, o, seen, s, i) && ShapeOk(shop, s.txns[i])
    ensures var s' := Apply(shop, s, Step(i, Start)); i < |s'.txns| && Followed(shop, req, o, seen, s', i)
  {
  }

  /** At the end the entry is the transaction's own answer. */
  lemma EndFollows(shop: Shop, req: Request, s: State, action: Action, i: nat, seen: nat, o: Oracle)
    requires i < |s.txns| && CanAct(shop, s, i, action) && (action.Commit? || action.Abort?)
    requires Check(shop, req).Ready? && OracleOk(o) && Followed(shop, req, o, seen, s, i)
    ensures var s' := Apply(shop, s, Step(i, action)); i < |s'.txns| && Followed(shop, req, o, seen, s', i)
  {
  }

  lemma ApplyFollows(shop: Shop, req: Request, s: State, ev: Event, i: nat, at: nat, w: World, seen: seq<Sight>,
                     o: Oracle)
    requires Enabled(shop, s, ev) && i < |s.txns| && ShapeOk(shop, s.txns[i]) && Check(shop, req).Ready?
    requires OracleOk(o) && Observes(o, shop, w, Check(shop, req).plan)
    requires o.found(1, Txn(req, Finding, None, None)) == FindIn(w, 1, Txn(req, Finding, None, None))
    requires Shows(w, seen + SightsOf(shop, s, ev, i, at)) && Followed(shop, req, o, |seen|, s, i)
    ensures var s' := Apply(shop, s, ev);
            i < |s'.txns| && Followed(shop, req, o, |seen + SightsOf(shop, s, ev, i, at)|, s', i)
  {
    if !ev.Step? || ev.i != i {
      assert seen + SightsOf(shop, s, ev, i, at) == seen;
      OthersLeaveFollowed(shop, req, s, ev, i, |seen|, o);
    } else if ev.action.Commit? || ev.action.Abort? {
      assert seen + SightsOf(shop, s, ev, i, at) == seen;
      EndFollows(shop, req, s, ev.action, i, |seen|, o);
    } else if ev.action.Start? {
      assert seen + SightsOf(shop, s, ev, i, at) == seen;
      StartFollows(shop, req, s, i, |seen|, o);
    } else {
      StepFollows(shop, req, s, ev.action, i, at, w, seen, o);
    }
  }

  lemma ShowsFewer(w: World, seen: seq<Sight>, more: seq<Sight>)
    requires Shows(w, seen + more)
    ensures Shows(w, seen)
  {
    assert forall k :: 0 <= k < |seen| ==> (seen + more)[k] == seen[k];
  }

  lemma {:induction false} RunFollows(shop: Shop, db: Db, reqs: seq<Request>, evs: seq<Event>, i: nat, w: World,
                                      plan: Plan, o: Oracle)
    requires ShopOk(shop) && DbOk(shop, db) && RunTo(shop, InitialState(db, reqs), evs).Some?
    requires i < |reqs| && Check(shop, reqs[i]) == Ready(plan) && OracleOk(o) && Observes(o, shop, w, plan)
    requires o.found(1, Txn(reqs[i], Finding, None, None)) == FindIn(w, 1, Txn(reqs[i], Finding, None, None))
    requires Shows(w, Sights(shop, InitialState(db, reqs), evs, i))
    ensures var s := RunTo(shop, InitialState(db, reqs), evs).value;
            i < |s.txns| && Followed(shop, reqs[i], o, |Sights(shop, InitialState(db, reqs), evs, i)|, s, i)
  {
    if |evs| == 0 {
    } else {
      var n, init := |evs| - 1, InitialState(db, reqs);
      var s, seen := RunTo(shop, init, evs[..n]).value, Sights(shop, init, evs[..n], i);
      ShowsFewer(w, seen, SightsOf(shop, s, evs[n], i, n));
      RunFollows(shop, db, reqs, evs[..n], i, w, plan, o);
      RunKeepsInv(shop, db, reqs, evs[..n]);
      ApplyFollows(shop, reqs[i], s, evs[n], i, n, w, seen, o);
    }
  }

  /** The sights are tables of the run, at transaction i's own steps and in their order. */
  ghost predicate InOrder(shop: Shop, init: State, evs: seq<Event>, i: nat, sights: seq<Sight>) {
    && (forall k :: 0 <= k < |sights| ==> OwnSight(shop, init, evs, i, sights[k]))
    && forall j, k :: 0 <= j < k < |sights| ==> sights[j].at <= sights[k].at
  }

  ghost predicate OwnSight(shop: Shop, init: State, evs: seq<Event>, i: nat, sight: Sight) {
    && sight.at < |evs| && evs[sight.at].Step? && evs[sight.at].i == i
    && var before := RunTo(shop, init, evs[..sight.at]);
       before.Some? && before.value.db == sight.db
  }

  lemma SightStays(shop: Shop, init: State, evs: seq<Event>, i: nat, sight: Sight)
    requires |evs| > 0 && OwnSight(shop, init, evs[..|evs| - 1], i, sight)
    ensures OwnSight(shop, init, evs, i, sight)
  {
    assert evs[..|evs| - 1][..sight.at] == evs[..sight.at];
  }

  lemma {:induction false} SightsInOrder(shop: Shop, init: State, evs: seq<Event>, i: nat)
    requires RunTo(shop, init, evs).Some?
    ensures InOrder(shop, init, evs, i, Sights(shop, init, evs, i))
  {
    if |evs| == 0 {
    } else {
      var n := |evs| - 1;
      var before := Sights(shop, init, evs[..n], i);
      var more := SightsOf(shop, RunTo(shop, init, evs[..n]).value, evs[n], i, n);
      SightsInOrder(shop, init, evs[..n], i);
      forall k | 0 <= k < |before| ensures OwnSight(shop, init, evs, i, before[k]) {
        SightStays(shop, init, evs, i, before[k]);
      }
      assert forall k :: 0 <= k < |more| ==> more[k].at == n && OwnSight(shop, init, evs, i, more[k]);
    }
  }

  /** Whatever else happens in a run of any number of bookings, foreign writers and cancellations: an
      entry of the commit history is the answer, row and record of the service's Book, run by itself in
      a world whose tables are the run's own at the transaction's steps. */
  lemma CommitsAreAnswers(shop: Shop, db: Db, reqs: seq<Request>, evs: seq<Event>, n: nat)
    returns (w: World, sights: seq<Sight>)
    requires ShopOk(shop) && DbOk(shop, db) && RunTo(shop, InitialState(db, reqs), evs).Some?
    requires n < |RunTo(shop, InitialState(db, reqs), evs).value.log|
    ensures var e := RunTo(shop, InitialState(db, reqs), evs).value.log[n];
            BookUnder(shop, w, e.req) == Answer(e.outcome, e.row, e.record)
    ensures Shows(w, sights)
    ensures InOrder(shop, InitialState(db, reqs), evs, RunTo(shop, InitialState(db, reqs), evs).value.log[n].tx, sights)
  {
    var init := InitialState(db, reqs);
    var e := RunTo(shop, init, evs).value.log[n];
    RunKeepsLog(shop, db, reqs, evs);
    RunKeepsInv(shop, db, reqs, evs);
    assert ShapeOk(shop, RunTo(shop, init, evs).value.txns[e.tx]);
    RunKeepsRequests(shop, db, reqs, evs);
    sights := Sights(shop, init, evs, e.tx);
    SightsInOrder(shop, init, evs, e.tx);
    w := WorldOf(db, sights);
    var o := BookByOracle(shop, w, reqs[e.tx], BookUnder(shop, w, reqs[e.tx]));
    RunFollows(shop, db, reqs, evs, e.tx, w, Check(shop, reqs[e.tx]).plan, o);
  }
}
