/** What one look at the day offers a request: the free qualified resources, the choice among them, and
    what a lost race does to them (domain/assign.go, ADR-0001 "Retry budget"). */
module Views {
  import opened Intervals
  import opened Policy
  import opened Assignment

  function IdsOf(cs: seq<Candidate>): set<Id> {
    if |cs| == 0 then {} else IdsOf(cs[..|cs| - 1]) + {cs[|cs| - 1].id}
  }

  lemma {:induction false} IdsMembers(cs: seq<Candidate>, id: Id)
    ensures id in IdsOf(cs) <==> exists c :: c in cs && c.id == id
  {
    if |cs| == 0 {
    } else {
      var n := |cs| - 1;
      IdsMembers(cs[..n], id);
      assert forall c :: c in cs <==> c in cs[..n] || c == cs[n];
    }
  }

  function FreeTechs(s: DaySchedule, st: ServiceType, iv: Interval): set<Id> {
    IdsOf(Free(Skilled(s.technicians, st.skill), iv))
  }

  function FreeBays(s: DaySchedule, st: ServiceType, iv: Interval): set<Id> {
    IdsOf(Free(Typed(s.bays, st.bayType), iv))
  }

  /** The identifiers of the members of a pool. */
  ghost function MemberIds<R(!new)>(pool: seq<Scheduled<R>>): set<Id> {
    set x | x in pool :: x.id
  }

  lemma {:induction false} DistinctMembers<R(!new)>(pool: seq<Scheduled<R>>)
    requires forall j, k :: 0 <= j < k < |pool| ==> pool[j].id != pool[k].id
    ensures |MemberIds(pool)| == |pool|
  {
    if |pool| == 0 {
      assert MemberIds(pool) == {};
    } else {
      var n := |pool| - 1;
      DistinctMembers(pool[..n]);
      assert MemberIds(pool) == MemberIds(pool[..n]) + {pool[n].id};
    }
  }

  /** A member is missing among the free ones exactly if everybody of its identifier overlaps. */
  lemma FreeIds<R(!new)>(pool: seq<Scheduled<R>>, iv: Interval, id: Id)
    ensures id in IdsOf(Free(pool, iv)) <==> exists x :: x in pool && x.id == id && !OverlapsAny(iv, x.booked)
    ensures id in IdsOf(Free(pool, iv)) ==> id in MemberIds(pool)
  {
    FreeMembers(pool, iv);
    IdsMembers(Free(pool, iv), id);
    if x :| x in pool && x.id == id && !OverlapsAny(iv, x.booked) {
      assert CandidateOf(x) in Free(pool, iv);
    }
  }

  // ----- What one look at the day shows -----

  /** The free qualified technicians and bays, and the selection's verdict. */
  datatype View = View(technicians: set<Id>, bays: set<Id>, verdict: Verdict) {
    /** A selected pair is free. */
    ghost predicate Fair() {
      verdict.Assigned? ==> verdict.technician in technicians && verdict.bay in bays
    }
  }

  function ViewOf(s: DaySchedule, st: ServiceType, iv: Interval): View {
    View(FreeTechs(s, st, iv), FreeBays(s, st, iv), Select(s, st, iv))
  }

  lemma ViewIsFair(s: DaySchedule, st: ServiceType, iv: Interval)
    ensures ViewOf(s, st, iv).Fair()
  {
    if Select(s, st, iv).Assigned? {
      var techs, bays := Free(Skilled(s.technicians, st.skill), iv), Free(Typed(s.bays, st.bayType), iv);
      LeastLoadedIsLeast(techs);
      LeastLoadedIsLeast(bays);
      IdsMembers(techs, LeastLoaded(techs).id);
      IdsMembers(bays, LeastLoaded(bays).id);
    }
  }

  /** Between two looks nothing was released, and both the technician and the bay chosen on the first
      are now taken: the losses the budget was designed for. */
  ghost predicate BothTaken(s: View, r: View) {
    s.verdict.Assigned? ==> r.technicians <= s.technicians - {s.verdict.technician}
                            && r.bays <= s.bays - {s.verdict.bay}
  }

  /** Between two looks nothing was released, and at least one of the chosen two is now taken. */
  ghost predicate OneTaken(s: View, r: View) {
    s.verdict.Assigned? ==>
      && r.technicians <= s.technicians && r.bays <= s.bays
      && (s.verdict.technician !in r.technicians || s.verdict.bay !in r.bays)
  }

  lemma Shrinks(a: set<Id>, b: set<Id>)
    requires a <= b
    ensures |a| <= |b| && (a != b ==> |a| < |b|)
  {
    assert b == a + (b - a);
    if a != b {
      assert b - a != {};
    }
  }

  /** A selection that takes both chosen resources away leaves one fewer of each kind. */
  lemma BothTakenStep(s: View, r: View)
    requires s.verdict.Assigned? && s.Fair() && BothTaken(s, r)
    ensures |r.technicians| < |s.technicians| && |r.bays| < |s.bays|
  {
    Shrinks(r.technicians, s.technicians - {s.verdict.technician});
    Shrinks(r.bays, s.bays - {s.verdict.bay});
  }

  lemma OneTakenStep(s: View, r: View)
    requires s.verdict.Assigned? && s.Fair() && OneTaken(s, r)
    ensures |r.technicians| + |r.bays| < |s.technicians| + |s.bays|
    ensures |r.technicians| <= |s.technicians| && |r.bays| <= |s.bays|
  {
    Shrinks(r.technicians, s.technicians);
    Shrinks(r.bays, s.bays);
  }

  lemma TakenFrom(s: View, r: View, technician: Id, bay: Id)
    requires r.technicians == s.technicians - {technician} && r.bays == s.bays - {bay}
    requires s.verdict.Assigned? && (s.verdict.technician == technician || s.verdict.bay == bay)
    ensures OneTaken(s, r)
  {
  }

  // ----- Qualified members -----

  lemma {:induction false} SkilledDistinct(ts: seq<Scheduled<Technician>>, skill: Id)
    requires forall j, k :: 0 <= j < k < |ts| ==> ts[j].id < ts[k].id
    ensures forall j, k :: 0 <= j < k < |Skilled(ts, skill)| ==> Skilled(ts, skill)[j].id < Skilled(ts, skill)[k].id
  {
    if |ts| == 0 {
    } else {
      var n := |ts| - 1;
      SkilledDistinct(ts[..n], skill);
      SkilledMembers(ts[..n], skill);
      var before := Skilled(ts[..n], skill);
      forall j | 0 <= j < |before| ensures before[j].id < ts[n].id {
        assert before[j] in ts[..n];
      }
    }
  }

  lemma {:induction false} TypedDistinct(bs: seq<Scheduled<Bay>>, kind: BayType)
    requires forall j, k :: 0 <= j < k < |bs| ==> bs[j].id < bs[k].id
    ensures forall j, k :: 0 <= j < k < |Typed(bs, kind)| ==> Typed(bs, kind)[j].id < Typed(bs, kind)[k].id
  {
    if |bs| == 0 {
    } else {
      var n := |bs| - 1;
      TypedDistinct(bs[..n], kind);
      TypedMembers(bs[..n], kind);
      var before := Typed(bs[..n], kind);
      forall j | 0 <= j < |before| ensures before[j].id < bs[n].id {
        assert before[j] in bs[..n];
      }
    }
  }

  // ----- The choice when the first few are taken -----

  /** The cheapest of some seats is taken first: members 0, 1, ... of which the first few are rivalled and
      the others have nothing booked. */
  lemma LowestFree<R(!new)>(pool: seq<Scheduled<R>>, busy: nat, iv: Interval)
    requires busy < |pool| && forall i :: 0 <= i < |pool| ==> pool[i].id == i
    requires forall i :: 0 <= i < busy ==> OverlapsAny(iv, pool[i].booked)
    requires forall i :: busy <= i < |pool| ==> pool[i].booked == []
    ensures |Free(pool, iv)| > 0 && LeastLoaded(Free(pool, iv)).id == busy
  {
    var free := Free(pool, iv);
    FreeMembers(pool, iv);
    assert pool[busy] in pool && CandidateOf(pool[busy]) == Candidate(busy, 0);
    forall c | c in free ensures busy <= c.id && c == Candidate(c.id, 0) {
      var x :| x in pool && !OverlapsAny(iv, x.booked) && c == CandidateOf(x);
      var i :| 0 <= i < |pool| && pool[i] == x;
    }
    LeastLoadedIsLeast(free);
    assert !Before(Candidate(busy, 0), LeastLoaded(free));
  }

  lemma {:induction false} SkilledPrefix(ts: seq<Scheduled<Technician>>, skill: Id, n: nat)
    requires n <= |ts| && forall i :: 0 <= i < |ts| ==> (skill in ts[i].item.skills <==> i < n)
    ensures Skilled(ts, skill) == ts[..n]
  {
    if |ts| == 0 {
    } else {
      var m := |ts| - 1;
      if n == |ts| {
        SkilledPrefix(ts[..m], skill, m);
        assert ts[..n] == ts[..m] + [ts[m]];
      } else {
        SkilledPrefix(ts[..m], skill, n);
        assert ts[..m][..n] == ts[..n];
      }
    }
  }

  lemma {:induction false} TypedPrefix(bs: seq<Scheduled<Bay>>, kind: BayType, n: nat)
    requires n <= |bs| && forall i :: 0 <= i < |bs| ==> (bs[i].item.kind == kind <==> i < n)
    ensures Typed(bs, kind) == bs[..n]
  {
    if |bs| == 0 {
    } else {
      var m := |bs| - 1;
      if n == |bs| {
        TypedPrefix(bs[..m], kind, m);
        assert bs[..n] == bs[..m] + [bs[m]];
      } else {
        TypedPrefix(bs[..m], kind, n);
        assert bs[..m][..n] == bs[..n];
      }
    }
  }

  /** The selection takes the lowest technician and bay that are not rivalled. */
  lemma LowestPairSelected(s: DaySchedule, st: ServiceType, iv: Interval, T: nat, B: nat, busyTechs: nat, busyBays: nat)
    requires busyTechs < T <= |s.technicians| && busyBays < B <= |s.bays| && s.vehicleBooked == []
    requires forall i :: 0 <= i < |s.technicians| ==>
               s.technicians[i].id == i && (st.skill in s.technicians[i].item.skills <==> i < T)
    requires forall i :: 0 <= i < |s.bays| ==> s.bays[i].id == i && (s.bays[i].item.kind == st.bayType <==> i < B)
    requires forall i :: 0 <= i < T ==>
               if i < busyTechs then OverlapsAny(iv, s.technicians[i].booked) else s.technicians[i].booked == []
    requires forall i :: 0 <= i < B ==>
               if i < busyBays then OverlapsAny(iv, s.bays[i].booked) else s.bays[i].booked == []
    ensures Select(s, st, iv) == Assigned(busyTechs, busyBays)
  {
    SkilledPrefix(s.technicians, st.skill, T);
    TypedPrefix(s.bays, st.bayType, B);
    LowestFree(s.technicians[..T], busyTechs, iv);
    LowestFree(s.bays[..B], busyBays, iv);
  }
}
