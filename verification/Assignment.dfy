/** Qualification filters and candidate selection (internal/domain/qualification.go, assign.go). */
module Assignment {
  import opened Intervals
  import opened Policy

  datatype BayType = General | Alignment | EV

  datatype ServiceType = ServiceType(duration: int, skill: Id, bayType: BayType)

  datatype Technician = Technician(skills: seq<Id>)

  datatype Bay = Bay(kind: BayType)

  /** A resource of the dealership with the confirmed intervals it holds on the day. */
  datatype Scheduled<R> = Scheduled(id: Id, item: R, booked: seq<Interval>)

  datatype DaySchedule = DaySchedule(
    technicians: seq<Scheduled<Technician>>, bays: seq<Scheduled<Bay>>, vehicleBooked: seq<Interval>)

  datatype ResourceKind = BAY | TECHNICIAN

  datatype Code =
    | NoAvailableResource | VehicleAlreadyBooked | OutsideBusinessHours | ServiceExceedsClosingTime
    | StartTimeInPast | ResourceNotFound | IdempotencyKeyReused | Contention

  datatype DomainError = DomainError(code: Code, conflicting: seq<ResourceKind>)

  datatype Verdict = Assigned(technician: Id, bay: Id) | Refused(error: DomainError)

  // ----- Specification -----

  function Skilled(ts: seq<Scheduled<Technician>>, skill: Id): seq<Scheduled<Technician>> {
    if |ts| == 0 then []
    else
      var n := |ts| - 1;
      Skilled(ts[..n], skill) + if skill in ts[n].item.skills then [ts[n]] else []
  }

  function Typed(bs: seq<Scheduled<Bay>>, kind: BayType): seq<Scheduled<Bay>> {
    if |bs| == 0 then []
    else
      var n := |bs| - 1;
      Typed(bs[..n], kind) + if bs[n].item.kind == kind then [bs[n]] else []
  }

  function CandidateOf<R>(x: Scheduled<R>): Candidate {
    Candidate(x.id, LoadOf(x.booked))
  }

  function Free<R>(pool: seq<Scheduled<R>>, iv: Interval): seq<Candidate> {
    if |pool| == 0 then []
    else
      var n := |pool| - 1;
      Free(pool[..n], iv) + if OverlapsAny(iv, pool[n].booked) then [] else [CandidateOf(pool[n])]
  }

  function ConflictingFor(noBay: bool, noTechnician: bool): seq<ResourceKind> {
    (if noBay then [BAY] else []) + (if noTechnician then [TECHNICIAN] else [])
  }

  /** The selection as one expression: what the loops of Assign compute. */
  function Select(s: DaySchedule, st: ServiceType, iv: Interval): Verdict {
    var techs := Free(Skilled(s.technicians, st.skill), iv);
    var bays := Free(Typed(s.bays, st.bayType), iv);
    if |bays| == 0 || |techs| == 0 then
      Refused(DomainError(NoAvailableResource, ConflictingFor(|bays| == 0, |techs| == 0)))
    else if OverlapsAny(iv, s.vehicleBooked) then
      Refused(DomainError(VehicleAlreadyBooked, []))
    else
      Assigned(LeastLoaded(techs).id, LeastLoaded(bays).id)
  }

  // ----- The code -----

  method QualifiedTechnicians(ts: seq<Scheduled<Technician>>, skill: Id) returns (out: seq<Scheduled<Technician>>)
    ensures out == Skilled(ts, skill)
  {
    out := [];
    for k := 0 to |ts|
      invariant out == Skilled(ts[..k], skill)
    {
      assert ts[..k + 1][..k] == ts[..k];
      if skill in ts[k].item.skills {
        out := out + [ts[k]];
      }
    }
    assert ts[..|ts|] == ts;
  }

  method QualifiedBays(bs: seq<Scheduled<Bay>>, kind: BayType) returns (out: seq<Scheduled<Bay>>)
    ensures out == Typed(bs, kind)
  {
    out := [];
    for k := 0 to |bs|
      invariant out == Typed(bs[..k], kind)
    {
      assert bs[..k + 1][..k] == bs[..k];
      if bs[k].item.kind == kind {
        out := out + [bs[k]];
      }
    }
    assert bs[..|bs|] == bs;
  }

  /** The candidate loop that Assign runs once over technicians and once over bays; byId remembers the
      record behind each candidate. */
  method FreeCandidates<R>(pool: seq<Scheduled<R>>, iv: Interval) returns (candidates: seq<Candidate>, byId: map<Id, R>)
    ensures candidates == Free(pool, iv)
    ensures forall c :: c in candidates ==> c.id in byId
    ensures forall i :: i in byId ==>
              exists x :: x in pool && !OverlapsAny(iv, x.booked) && x.id == i && x.item == byId[i]
  {
    candidates, byId := [], map[];
    for k := 0 to |pool|
      invariant candidates == Free(pool[..k], iv)
      invariant forall c :: c in candidates ==> c.id in byId
      invariant forall i :: i in byId ==>
                  exists x :: x in pool && !OverlapsAny(iv, x.booked) && x.id == i && x.item == byId[i]
    {
      assert pool[..k + 1][..k] == pool[..k];
      if OverlapsAny(iv, pool[k].booked) {
        continue;
      }
      byId := byId[pool[k].id := pool[k].item];
      var load := LoadMinutes(pool[k].booked);
      candidates := candidates + [Candidate(pool[k].id, load)];
    }
    assert pool[..|pool|] == pool;
  }

  /** The verdict and, with an assignment, the records of the chosen technician and bay. */
  method Assign(s: DaySchedule, st: ServiceType, iv: Interval)
    returns (v: Verdict, technician: Option<Technician>, bay: Option<Bay>)
    ensures v == Select(s, st, iv)
    ensures v.Refused? ==> technician == None && bay == None
    ensures v.Assigned? ==> technician.Some? && exists t :: FreeTechnician(s, st, iv, t) && t.id == v.technician
                                                            && t.item == technician.value
    ensures v.Assigned? ==> bay.Some? && exists b :: FreeBay(s, st, iv, b) && b.id == v.bay && b.item == bay.value
  {
    var qualified := QualifiedTechnicians(s.technicians, st.skill);
    var techCandidates, techById := FreeCandidates(qualified, iv);
    var typed := QualifiedBays(s.bays, st.bayType);
    var bayCandidates, bayById := FreeCandidates(typed, iv);

    var conflicting := ConflictingFor(|bayCandidates| == 0, |techCandidates| == 0);
    if |conflicting| > 0 {
      return Refused(DomainError(NoAvailableResource, conflicting)), None, None;
    }
    if OverlapsAny(iv, s.vehicleBooked) {
      return Refused(DomainError(VehicleAlreadyBooked, [])), None, None;
    }
    var tech := Choose(techCandidates);
    var chosenBay := Choose(bayCandidates);
    if tech.None? || chosenBay.None? {
      return Refused(DomainError(NoAvailableResource, ConflictingFor(chosenBay.None?, tech.None?))), None, None;
    }
    LeastLoadedIsLeast(techCandidates);
    LeastLoadedIsLeast(bayCandidates);
    SkilledMembers(s.technicians, st.skill);
    TypedMembers(s.bays, st.bayType);
    v := Assigned(tech.value.id, chosenBay.value.id);
    technician, bay := Some(techById[tech.value.id]), Some(bayById[chosenBay.value.id]);
  }

  // ----- What the selection means -----

  /** The filter keeps exactly the holders of the skill. */
  lemma {:induction false} SkilledMembers(ts: seq<Scheduled<Technician>>, skill: Id)
    ensures forall x :: x in Skilled(ts, skill) <==> x in ts && skill in x.item.skills
    ensures |Skilled(ts, skill)| <= |ts|
  {
    if |ts| == 0 {
    } else {
      var n := |ts| - 1;
      SkilledMembers(ts[..n], skill);
      assert forall x :: x in ts <==> x in ts[..n] || x == ts[n];
    }
  }

  /** The filter keeps exactly the bays of the type. */
  lemma {:induction false} TypedMembers(bs: seq<Scheduled<Bay>>, kind: BayType)
    ensures forall x :: x in Typed(bs, kind) <==> x in bs && x.item.kind == kind
    ensures |Typed(bs, kind)| <= |bs|
  {
    if |bs| == 0 {
    } else {
      var n := |bs| - 1;
      TypedMembers(bs[..n], kind);
      assert forall x :: x in bs <==> x in bs[..n] || x == bs[n];
    }
  }

  ghost predicate FreeTechnician(s: DaySchedule, st: ServiceType, iv: Interval, t: Scheduled<Technician>) {
    t in s.technicians && st.skill in t.item.skills && !OverlapsAny(iv, t.booked)
  }

  ghost predicate FreeBay(s: DaySchedule, st: ServiceType, iv: Interval, b: Scheduled<Bay>) {
    b in s.bays && b.item.kind == st.bayType && !OverlapsAny(iv, b.booked)
  }

  lemma {:induction false} FreeMembers<R>(pool: seq<Scheduled<R>>, iv: Interval)
    ensures forall c :: c in Free(pool, iv) <==>
              exists x :: x in pool && !OverlapsAny(iv, x.booked) && c == CandidateOf(x)
    ensures |Free(pool, iv)| == 0 <==> forall x :: x in pool ==> OverlapsAny(iv, x.booked)
  {
    if |pool| == 0 {
    } else {
      var n := |pool| - 1;
      FreeMembers(pool[..n], iv);
      assert forall x :: x in pool <==> x in pool[..n] || x == pool[n];
    }
  }

  /** Select succeeds exactly when a free qualified technician, a free qualified bay and a free
      vehicle exist; it returns the one of each kind that no other beats on (load, id); and a refusal
      names exactly the kinds with no free candidate, resources before the vehicle. */
  lemma SelectCharacterised(s: DaySchedule, st: ServiceType, iv: Interval)
    ensures var noTech := !exists t :: FreeTechnician(s, st, iv, t);
            var noBay := !exists b :: FreeBay(s, st, iv, b);
            var v := Select(s, st, iv);
            && (v.Assigned? <==> !noTech && !noBay && !OverlapsAny(iv, s.vehicleBooked))
            && (noTech || noBay ==> v.Refused? && v.error.code == NoAvailableResource
                                    && v.error.conflicting ==
                                       if !noTech then [BAY] else if !noBay then [TECHNICIAN] else [BAY, TECHNICIAN])
            && (!noTech && !noBay && v.Refused? ==> v.error == DomainError(VehicleAlreadyBooked, []))
            && (v.Assigned? ==>
                  && (exists t :: FreeTechnician(s, st, iv, t) && t.id == v.technician
                        && forall o :: FreeTechnician(s, st, iv, o) ==> !Before(CandidateOf(o), CandidateOf(t)))
                  && (exists b :: FreeBay(s, st, iv, b) && b.id == v.bay
                        && forall o :: FreeBay(s, st, iv, o) ==> !Before(CandidateOf(o), CandidateOf(b))))
  {
    var techs, bays := Skilled(s.technicians, st.skill), Typed(s.bays, st.bayType);
    SkilledMembers(s.technicians, st.skill);
    TypedMembers(s.bays, st.bayType);
    FreeMembers(techs, iv);
    FreeMembers(bays, iv);
    if |Free(techs, iv)| > 0 { LeastLoadedIsLeast(Free(techs, iv)); }
    if |Free(bays, iv)| > 0 { LeastLoadedIsLeast(Free(bays, iv)); }
    assert forall t :: FreeTechnician(s, st, iv, t) <==> t in techs && !OverlapsAny(iv, t.booked);
    assert forall b :: FreeBay(s, st, iv, b) <==> b in bays && !OverlapsAny(iv, b.booked);
  }

  lemma AssignedIsFree(s: DaySchedule, st: ServiceType, iv: Interval)
    requires Select(s, st, iv).Assigned?
    ensures exists t :: FreeTechnician(s, st, iv, t) && t.id == Select(s, st, iv).technician
    ensures exists b :: FreeBay(s, st, iv, b) && b.id == Select(s, st, iv).bay
    ensures !OverlapsAny(iv, s.vehicleBooked)
  {
    SelectCharacterised(s, st, iv);
  }

  /** A member without the order of its booked intervals. */
  ghost function Shape<R>(x: Scheduled<R>): (Id, R, multiset<Interval>) {
    (x.id, x.item, multiset(x.booked))
  }

  ghost function Shapes<R(!new)>(p: seq<Scheduled<R>>): set<(Id, R, multiset<Interval>)> {
    set x | x in p :: Shape(x)
  }

  lemma SameShapeSameCandidate<R>(x: Scheduled<R>, y: Scheduled<R>, iv: Interval)
    requires Shape(x) == Shape(y)
    ensures CandidateOf(x) == CandidateOf(y)
    ensures OverlapsAny(iv, x.booked) <==> OverlapsAny(iv, y.booked)
  {
    LoadIgnoresOrder(x.booked, y.booked);
    assert forall o :: o in x.booked <==> o in multiset(x.booked);
    assert forall o :: o in y.booked <==> o in multiset(y.booked);
  }

  lemma FreeIgnoresOrder<R(!new)>(p: seq<Scheduled<R>>, q: seq<Scheduled<R>>, iv: Interval, c: Candidate)
    requires Shapes(p) <= Shapes(q) && c in Free(p, iv)
    ensures c in Free(q, iv)
  {
    FreeMembers(p, iv);
    FreeMembers(q, iv);
    var x :| x in p && !OverlapsAny(iv, x.booked) && c == CandidateOf(x);
    assert Shape(x) in Shapes(q);
    var y :| y in q && Shape(y) == Shape(x);
    SameShapeSameCandidate(x, y, iv);
  }

  lemma SameChoice<R(!new)>(p: seq<Scheduled<R>>, q: seq<Scheduled<R>>, iv: Interval)
    requires Shapes(p) == Shapes(q)
    ensures |Free(p, iv)| == 0 <==> |Free(q, iv)| == 0
    ensures |Free(p, iv)| > 0 ==> LeastLoaded(Free(p, iv)) == LeastLoaded(Free(q, iv))
  {
    var fp, fq := Free(p, iv), Free(q, iv);
    forall c ensures c in fp <==> c in fq {
      if c in fp { FreeIgnoresOrder(p, q, iv, c); }
      if c in fq { FreeIgnoresOrder(q, p, iv, c); }
    }
    if |fp| > 0 {
      assert fp[0] in fq;
      LeastLoadedIsLeast(fp);
      LeastIsUnique(LeastLoaded(fp), fp, fq);
    }
    if |fq| > 0 {
      assert fq[0] in fp;
    }
  }

  lemma SkilledKeepsShapes(p: seq<Scheduled<Technician>>, q: seq<Scheduled<Technician>>, skill: Id)
    requires Shapes(p) <= Shapes(q)
    ensures Shapes(Skilled(p, skill)) <= Shapes(Skilled(q, skill))
  {
    SkilledMembers(p, skill);
    SkilledMembers(q, skill);
    forall x | x in Skilled(p, skill) ensures Shape(x) in Shapes(Skilled(q, skill)) {
      assert Shape(x) in Shapes(q);
      var y :| y in q && Shape(y) == Shape(x);
      assert y in Skilled(q, skill);
    }
  }

  lemma TypedKeepsShapes(p: seq<Scheduled<Bay>>, q: seq<Scheduled<Bay>>, kind: BayType)
    requires Shapes(p) <= Shapes(q)
    ensures Shapes(Typed(p, kind)) <= Shapes(Typed(q, kind))
  {
    TypedMembers(p, kind);
    TypedMembers(q, kind);
    forall x | x in Typed(p, kind) ensures Shape(x) in Shapes(Typed(q, kind)) {
      assert Shape(x) in Shapes(q);
      var y :| y in q && Shape(y) == Shape(x);
      assert y in Typed(q, kind);
    }
  }

  /** The verdict does not depend on the order of technicians, bays or booked lists. */
  lemma SelectIgnoresOrder(s: DaySchedule, r: DaySchedule, st: ServiceType, iv: Interval)
    requires Shapes(s.technicians) == Shapes(r.technicians) && Shapes(s.bays) == Shapes(r.bays)
    requires multiset(s.vehicleBooked) == multiset(r.vehicleBooked)
    ensures Select(s, st, iv) == Select(r, st, iv)
  {
    SkilledKeepsShapes(s.technicians, r.technicians, st.skill);
    SkilledKeepsShapes(r.technicians, s.technicians, st.skill);
    TypedKeepsShapes(s.bays, r.bays, st.bayType);
    TypedKeepsShapes(r.bays, s.bays, st.bayType);
    SameChoice(Skilled(s.technicians, st.skill), Skilled(r.technicians, st.skill), iv);
    SameChoice(Typed(s.bays, st.bayType), Typed(r.bays, st.bayType), iv);
    assert forall o :: o in s.vehicleBooked <==> o in multiset(s.vehicleBooked);
    assert forall o :: o in r.vehicleBooked <==> o in multiset(r.vehicleBooked);
  }
}
