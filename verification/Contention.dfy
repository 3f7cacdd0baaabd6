/** How many attempts Book needs (ADR-0001 "Retry budget"): enough for the losses the budget was designed
    for, and the exact bound when a lost race is only known to take one of the two chosen resources. */
module Contention {
  import opened Intervals
  import opened Policy
  import opened Assignment
  import opened Schema
  import opened Booking
  import opened Safety
  import opened LastSlots
  import opened Loader
  import opened Retry
  import opened Views
  import opened Transaction
  import opened Service
  import opened Conformance

  // ----- The resources of a dealership -----

  ghost function HolderIds(shop: Shop, d: Id, skill: Id): set<Id> {
    set t | t in shop.technicians && t.dealership == d && skill in t.skills :: t.id
  }

  ghost function TypeIds(shop: Shop, d: Id, kind: BayType): set<Id> {
    set b | b in shop.bays && b.dealership == d && b.kind == kind :: b.id
  }

  /** A technician of the dealership without the skill. */
  ghost predicate SpareTechnician(shop: Shop, d: Id, st: ServiceType) {
    exists t :: t in shop.technicians && t.dealership == d && st.skill !in t.skills
  }

  /** A bay of the dealership of another type. */
  ghost predicate SpareBay(shop: Shop, d: Id, st: ServiceType) {
    exists b :: b in shop.bays && b.dealership == d && b.kind != st.bayType
  }

  /** Whatever the rows, the qualified technicians of a schedule are the holders at the dealership. */
  lemma HoldersQualify(shop: Shop, rows: seq<Row>, q: ScheduleQuery, st: ServiceType)
    requires ShopOk(shop)
    ensures var pool := Skilled(DayScheduleOf(shop, rows, q).technicians, st.skill);
            MemberIds(pool) == HolderIds(shop, q.dealership, st.skill)
              && |pool| == |HolderIds(shop, q.dealership, st.skill)|
  {
    var ts := DayScheduleOf(shop, rows, q).technicians;
    var pool, ids := Skilled(ts, st.skill), HolderIds(shop, q.dealership, st.skill);
    SkilledMembers(ts, st.skill);
    forall id ensures id in MemberIds(pool) <==> id in ids {
      if x :| x in pool && x.id == id {
        TechnicianDayMember(shop, rows, q, x);
      }
      if t :| t in shop.technicians && t.dealership == q.dealership && st.skill in t.skills && t.id == id {
        var x := TechnicianListed(shop, rows, q, t);
        assert x in pool;
      }
    }
    TechniciansAtUnique(shop.technicians, q.dealership);
    SkilledDistinct(ts, st.skill);
    DistinctMembers(pool);
  }

  lemma TypesQualify(shop: Shop, rows: seq<Row>, q: ScheduleQuery, st: ServiceType)
    requires ShopOk(shop)
    ensures var pool := Typed(DayScheduleOf(shop, rows, q).bays, st.bayType);
            MemberIds(pool) == TypeIds(shop, q.dealership, st.bayType)
              && |pool| == |TypeIds(shop, q.dealership, st.bayType)|
  {
    var bs := DayScheduleOf(shop, rows, q).bays;
    var pool, ids := Typed(bs, st.bayType), TypeIds(shop, q.dealership, st.bayType);
    TypedMembers(bs, st.bayType);
    forall id ensures id in MemberIds(pool) <==> id in ids {
      if x :| x in pool && x.id == id {
        BayDayMember(shop, rows, q, x);
      }
      if b :| b in shop.bays && b.dealership == q.dealership && b.kind == st.bayType && b.id == id {
        var x := BayListed(shop, rows, q, b);
        assert x in pool;
      }
    }
    BaysAtUnique(shop.bays, q.dealership);
    TypedDistinct(bs, st.bayType);
    DistinctMembers(pool);
  }

  // ----- What an appointment takes -----

  /** A confirmed row of the day overlaps the interval. */
  ghost predicate Rivals(rows: seq<Row>, q: ScheduleQuery, iv: Interval, r: Row) {
    r in rows && InDay(r, q) && iv.Overlaps(r.iv)
  }

  /** A resource is booked at an overlapping time exactly because of such a row. */
  lemma BookedByRival(rows: seq<Row>, q: ScheduleQuery, iv: Interval, res: Resource)
    ensures OverlapsAny(iv, BookedFor(rows, q, res)) <==> exists r :: Rivals(rows, q, iv, r) && Uses(r, res)
  {
    BookedForMembers(rows, q, res);
    if OverlapsAny(iv, BookedFor(rows, q, res)) {
      var o :| o in BookedFor(rows, q, res) && iv.Overlaps(o);
      var r :| r in rows && InDay(r, q) && Uses(r, res) && r.iv == o;
      assert Rivals(rows, q, iv, r);
    }
    if r :| Rivals(rows, q, iv, r) && Uses(r, res) {
      assert r.iv in BookedFor(rows, q, res);
    }
  }

  /** A holder is free exactly if no row of the day has her at an overlapping time. */
  lemma HolderFree(shop: Shop, rows: seq<Row>, q: ScheduleQuery, st: ServiceType, iv: Interval, id: Id)
    requires ShopOk(shop)
    ensures id in FreeTechs(DayScheduleOf(shop, rows, q), st, iv) <==>
              && id in HolderIds(shop, q.dealership, st.skill)
              && !exists r :: Rivals(rows, q, iv, r) && Uses(r, TheTechnician(id))
  {
    var ts := DayScheduleOf(shop, rows, q).technicians;
    var pool := Skilled(ts, st.skill);
    FreeIds(pool, iv, id);
    HoldersQualify(shop, rows, q, st);
    SkilledMembers(ts, st.skill);
    BookedByRival(rows, q, iv, TheTechnician(id));
    forall x | x in pool && x.id == id ensures x.booked == BookedFor(rows, q, TheTechnician(id)) {
      TechnicianDayMember(shop, rows, q, x);
    }
  }

  lemma BayOfTypeFree(shop: Shop, rows: seq<Row>, q: ScheduleQuery, st: ServiceType, iv: Interval, id: Id)
    requires ShopOk(shop)
    ensures id in FreeBays(DayScheduleOf(shop, rows, q), st, iv) <==>
              && id in TypeIds(shop, q.dealership, st.bayType)
              && !exists r :: Rivals(rows, q, iv, r) && Uses(r, TheBay(id))
  {
    var bs := DayScheduleOf(shop, rows, q).bays;
    var pool := Typed(bs, st.bayType);
    FreeIds(pool, iv, id);
    TypesQualify(shop, rows, q, st);
    TypedMembers(bs, st.bayType);
    BookedByRival(rows, q, iv, TheBay(id));
    forall x | x in pool && x.id == id ensures x.booked == BookedFor(rows, q, TheBay(id)) {
      BayDayMember(shop, rows, q, x);
    }
  }

  /** An appointment always holds a technician and a bay of its dealership: where all technicians have
      the skill it takes a qualified one, and where all bays have the type it takes one of those. */
  lemma RivalTakes(shop: Shop, rows: seq<Row>, q: ScheduleQuery, st: ServiceType, iv: Interval, r: Row)
    requires ShopOk(shop) && RowOk(shop, r) && Rivals(rows, q, iv, r)
    ensures !SpareTechnician(shop, q.dealership, st) ==>
              r.technician in HolderIds(shop, q.dealership, st.skill) - FreeTechs(DayScheduleOf(shop, rows, q), st, iv)
    ensures !SpareBay(shop, q.dealership, st) ==>
              r.bay in TypeIds(shop, q.dealership, st.bayType) - FreeBays(DayScheduleOf(shop, rows, q), st, iv)
  {
    HolderFree(shop, rows, q, st, iv, r.technician);
    BayOfTypeFree(shop, rows, q, st, iv, r.bay);
    assert Uses(r, TheTechnician(r.technician)) && Uses(r, TheBay(r.bay));
    var t :| t in shop.technicians && t.id == r.technician && t.dealership == r.dealership;
    var b :| b in shop.bays && b.id == r.bay && b.dealership == r.dealership;
    if !SpareTechnician(shop, q.dealership, st) {
      assert st.skill in t.skills;
    }
    if !SpareBay(shop, q.dealership, st) {
      assert b.kind == st.bayType;
    }
  }

  lemma SomeRival(shop: Shop, rows: seq<Row>, q: ScheduleQuery, st: ServiceType, iv: Interval) returns (r: Row)
    requires ShopOk(shop)
    requires FreeTechs(DayScheduleOf(shop, rows, q), st, iv) != HolderIds(shop, q.dealership, st.skill)
             || FreeBays(DayScheduleOf(shop, rows, q), st, iv) != TypeIds(shop, q.dealership, st.bayType)
    ensures Rivals(rows, q, iv, r)
  {
    forall id { HolderFree(shop, rows, q, st, iv, id); }
    forall id { BayOfTypeFree(shop, rows, q, st, iv, id); }
    r :| Rivals(rows, q, iv, r);
  }

  /** A row of the day that overlaps the interval takes its technician and its bay, and nobody else. */
  lemma RowTakes(shop: Shop, rows: seq<Row>, r: Row, q: ScheduleQuery, st: ServiceType, iv: Interval)
    requires ShopOk(shop) && InDay(r, q) && iv.Overlaps(r.iv)
    ensures FreeTechs(DayScheduleOf(shop, rows + [r], q), st, iv)
            == FreeTechs(DayScheduleOf(shop, rows, q), st, iv) - {r.technician}
    ensures FreeBays(DayScheduleOf(shop, rows + [r], q), st, iv)
            == FreeBays(DayScheduleOf(shop, rows, q), st, iv) - {r.bay}
  {
    forall id ensures id in FreeTechs(DayScheduleOf(shop, rows + [r], q), st, iv) <==>
                      id in FreeTechs(DayScheduleOf(shop, rows, q), st, iv) && id != r.technician {
      StillFree(shop, rows, r, q, st, iv, id);
    }
    forall id ensures id in FreeBays(DayScheduleOf(shop, rows + [r], q), st, iv) <==>
                      id in FreeBays(DayScheduleOf(shop, rows, q), st, iv) && id != r.bay {
      StillFreeBay(shop, rows, r, q, st, iv, id);
    }
  }

  lemma RivalsGrow(rows: seq<Row>, r: Row, q: ScheduleQuery, iv: Interval, res: Resource)
    requires InDay(r, q) && iv.Overlaps(r.iv)
    ensures (exists o :: Rivals(rows + [r], q, iv, o) && Uses(o, res)) <==>
              Uses(r, res) || exists o :: Rivals(rows, q, iv, o) && Uses(o, res)
  {
    if o :| Rivals(rows + [r], q, iv, o) && Uses(o, res) {
      assert o == r || Rivals(rows, q, iv, o);
    }
    if o :| Rivals(rows, q, iv, o) && Uses(o, res) {
      assert Rivals(rows + [r], q, iv, o);
    }
    assert Rivals(rows + [r], q, iv, r);
  }

  lemma StillFree(shop: Shop, rows: seq<Row>, r: Row, q: ScheduleQuery, st: ServiceType, iv: Interval, id: Id)
    requires ShopOk(shop) && InDay(r, q) && iv.Overlaps(r.iv)
    ensures id in FreeTechs(DayScheduleOf(shop, rows + [r], q), st, iv) <==>
              id in FreeTechs(DayScheduleOf(shop, rows, q), st, iv) && id != r.technician
  {
    HolderFree(shop, rows, q, st, iv, id);
    HolderFree(shop, rows + [r], q, st, iv, id);
    RivalsGrow(rows, r, q, iv, TheTechnician(id));
  }

  lemma StillFreeBay(shop: Shop, rows: seq<Row>, r: Row, q: ScheduleQuery, st: ServiceType, iv: Interval, id: Id)
    requires ShopOk(shop) && InDay(r, q) && iv.Overlaps(r.iv)
    ensures id in FreeBays(DayScheduleOf(shop, rows + [r], q), st, iv) <==>
              id in FreeBays(DayScheduleOf(shop, rows, q), st, iv) && id != r.bay
  {
    BayOfTypeFree(shop, rows, q, st, iv, id);
    BayOfTypeFree(shop, rows + [r], q, st, iv, id);
    RivalsGrow(rows, r, q, iv, TheBay(id));
  }

  // ----- What the attempts see -----

  function ViewAt(shop: Shop, w: World, plan: Plan, k: nat): View {
    ViewOf(DayAt(shop, w, plan, k), plan.st, plan.iv)
  }

  /** view(k) is what statement k sees. */
  ghost predicate Sees(view: nat -> View, shop: Shop, w: World, plan: Plan) {
    forall k: nat {:trigger ViewAt(shop, w, plan, k)} :: view(k) == ViewAt(shop, w, plan, k)
  }

  lemma SomeView(shop: Shop, w: World, plan: Plan) returns (view: nat -> View)
    ensures Sees(view, shop, w, plan)
  {
    view := (k: nat) => ViewAt(shop, w, plan, k);
  }

  /** The attempt that reads at statement k selects a pair, and its insert at the next one is beaten. */
  predicate BeatenAt(w: World, req: Request, plan: Plan, view: nat -> View, k: nat) {
    var v := view(k).verdict;
    && !w.fault(k) && v.Assigned? && !w.fault(k + 1)
    && Beaten(w, k + 1, NewRow(req, plan, v.technician, v.bay, w.id(k + 1)))
  }

  /** Of the n attempts from statement k on, each that is beaten finds both its technician and its bay
      taken at the next read: the losses the budget was designed for. */
  ghost predicate LossesTakeBoth(w: World, req: Request, plan: Plan, view: nat -> View, k: nat, n: nat)
    decreases n
  {
    n > 0 ==>
      && (BeatenAt(w, req, plan, view, k) ==> BothTaken(view(k), view(k + 2)))
      && LossesTakeBoth(w, req, plan, view, k + 2, n - 1)
  }

  /** Of the n attempts from statement k on, each that is beaten finds its technician or its bay taken. */
  ghost predicate LossesTakeOne(w: World, req: Request, plan: Plan, view: nat -> View, k: nat, n: nat)
    decreases n
  {
    n > 0 ==>
      && (BeatenAt(w, req, plan, view, k) ==> OneTaken(view(k), view(k + 2)))
      && LossesTakeOne(w, req, plan, view, k + 2, n - 1)
  }

  /** The budget of a request at a dealership with that many qualified technicians and bays. */
  ghost function FullBudget(shop: Shop, d: Id, st: ServiceType): nat {
    Max(shop.maxAttempts, Min(|HolderIds(shop, d, st.skill)|, |TypeIds(shop, d, st.bayType)|) + 1)
  }

  lemma BudgetIs(shop: Shop, w: World, plan: Plan, o: Oracle, k: nat)
    requires ShopOk(shop) && Observes(o, shop, w, plan)
    ensures BudgetFor(0, shop.maxAttempts, o.qualified(k)) == FullBudget(shop, plan.query.dealership, plan.st)
  {
    assert o.qualified(k) == QualifiedPairs(DayAt(shop, w, plan, k), plan.st);
    HoldersQualify(shop, w.tables(k).rows, plan.query, plan.st);
    TypesQualify(shop, w.tables(k).rows, plan.query, plan.st);
  }

  lemma Glance(shop: Shop, w: World, plan: Plan, o: Oracle, view: nat -> View, k: nat)
    requires Observes(o, shop, w, plan) && Sees(view, shop, w, plan)
    ensures o.verdict(k) == view(k).verdict && view(k).Fair()
  {
    assert view(k) == ViewAt(shop, w, plan, k);
    ViewIsFair(DayAt(shop, w, plan, k), plan.st, plan.iv);
  }

  lemma LostIsBeaten(shop: Shop, w: World, req: Request, plan: Plan, o: Oracle, view: nat -> View, k: nat)
    requires Observes(o, shop, w, plan) && Sees(view, shop, w, plan)
    ensures LostAt(o, req, plan, k) <==> BeatenAt(w, req, plan, view, k)
  {
    Glance(shop, w, plan, o, view, k);
    var v := o.verdict(k);
    if v.Assigned? {
      var row := NewRow(req, plan, v.technician, v.bay, w.id(k + 1));
      assert Beaten(w, k + 1, row) == o.loses(k + 1, row);
    }
  }

  /** Only holders of the skill and bays of the type are free at a look. */
  lemma SeenWithin(shop: Shop, w: World, plan: Plan, view: nat -> View, k: nat)
    requires ShopOk(shop) && Sees(view, shop, w, plan)
    ensures view(k).technicians <= HolderIds(shop, plan.query.dealership, plan.st.skill)
    ensures view(k).bays <= TypeIds(shop, plan.query.dealership, plan.st.bayType)
    ensures |view(k).technicians| <= |HolderIds(shop, plan.query.dealership, plan.st.skill)|
    ensures |view(k).bays| <= |TypeIds(shop, plan.query.dealership, plan.st.bayType)|
  {
    assert view(k) == ViewAt(shop, w, plan, k);
    forall id { HolderFree(shop, w.tables(k).rows, plan.query, plan.st, plan.iv, id); }
    forall id { BayOfTypeFree(shop, w.tables(k).rows, plan.query, plan.st, plan.iv, id); }
    Shrinks(view(k).technicians, HolderIds(shop, plan.query.dealership, plan.st.skill));
    Shrinks(view(k).bays, TypeIds(shop, plan.query.dealership, plan.st.bayType));
  }

  // ----- Losses that take both -----

  /** That many losses before a selection that still succeeds need more than that many of each kind. */
  lemma {:induction false} BothTakenLosses(shop: Shop, w: World, req: Request, plan: Plan, o: Oracle,
                                           view: nat -> View, k: nat, n: nat)
    requires Observes(o, shop, w, plan) && Sees(view, shop, w, plan) && LossesTakeBoth(w, req, plan, view, k, n)
    requires AllLost(o, req, plan, k, n) && o.verdict(k + 2 * n).Assigned?
    ensures n < |view(k).technicians| && n < |view(k).bays|
    decreases n
  {
    Glance(shop, w, plan, o, view, k);
    if n == 0 {
    } else {
      LostIsBeaten(shop, w, req, plan, o, view, k);
      BothTakenStep(view(k), view(k + 2));
      BothTakenLosses(shop, w, req, plan, o, view, k + 2, n - 1);
    }
  }

  lemma BothTakenNeverContends(shop: Shop, w: World, req: Request, plan: Plan, o: Oracle, view: nat -> View, k: nat,
                               budget: nat)
    requires ShopOk(shop) && Observes(o, shop, w, plan) && Sees(view, shop, w, plan)
    requires budget == FullBudget(shop, plan.query.dealership, plan.st)
    requires AllLost(o, req, plan, k, budget) && o.verdict(k + 2 * budget).Assigned?
    ensures !LossesTakeBoth(w, req, plan, view, k, budget)
  {
    if LossesTakeBoth(w, req, plan, view, k, budget) {
      BothTakenLosses(shop, w, req, plan, o, view, k, budget);
      SeenWithin(shop, w, plan, view, k);
    }
  }

  lemma ContendedNotBothTaken(shop: Shop, w: World, req: Request, view: nat -> View)
    requires ShopOk(shop) && Check(shop, req).Ready? && LiveRecord(w.tables(1).records, req).None?
    requires Sees(view, shop, w, Check(shop, req).plan)
    requires BookUnder(shop, w, req).Answer? && Contends(BookUnder(shop, w, req).outcome)
    ensures var plan := Check(shop, req).plan;
            !LossesTakeBoth(w, req, plan, view, FirstRead(req), FullBudget(shop, req.dealership, plan.st))
  {
    var o := ContentionIsAllLost(shop, w, req, BookUnder(shop, w, req));
    CheckedRequest(shop, req);
    BudgetIs(shop, w, Check(shop, req).plan, o, FirstRead(req));
    BothTakenNeverContends(shop, w, req, Check(shop, req).plan, o, view, FirstRead(req),
                           FullBudget(shop, req.dealership, Check(shop, req).plan.st));
  }

  /** If every lost race takes both chosen resources, the budget always suffices: Book never answers
      CONTENTION. */
  lemma BudgetSuffices(shop: Shop, w: World, req: Request, view: nat -> View)
    requires ShopOk(shop) && Check(shop, req).Ready? && LiveRecord(w.tables(1).records, req).None?
    requires var plan := Check(shop, req).plan;
             Sees(view, shop, w, plan) && LossesTakeBoth(w, req, plan, view, FirstRead(req),
                                                         FullBudget(shop, req.dealership, plan.st))
    ensures BookUnder(shop, w, req).Answer? ==> !Contends(BookUnder(shop, w, req).outcome)
  {
    if BookUnder(shop, w, req).Answer? && Contends(BookUnder(shop, w, req).outcome) {
      ContendedNotBothTaken(shop, w, req, view);
    }
  }

  // ----- Losses that take at least one -----

  /** That many losses before a selection that still succeeds leave one of each kind. */
  lemma {:induction false} OneTakenLosses(shop: Shop, w: World, req: Request, plan: Plan, o: Oracle,
                                          view: nat -> View, k: nat, n: nat)
    requires Observes(o, shop, w, plan) && Sees(view, shop, w, plan) && LossesTakeOne(w, req, plan, view, k, n)
    requires AllLost(o, req, plan, k, n) && o.verdict(k + 2 * n).Assigned?
    ensures n + 2 <= |view(k).technicians| + |view(k).bays| && |view(k).technicians| >= 1 && |view(k).bays| >= 1
    decreases n
  {
    Glance(shop, w, plan, o, view, k);
    if n == 0 {
    } else {
      LostIsBeaten(shop, w, req, plan, o, view, k);
      OneTakenStep(view(k), view(k + 2));
      OneTakenLosses(shop, w, req, plan, o, view, k + 2, n - 1);
    }
  }

  /** What a look that misses somebody says: one of the two kinds has paid, and both where no one is spare. */
  lemma SomebodyTaken(shop: Shop, w: World, plan: Plan, view: nat -> View, k: nat)
    requires ShopOk(shop) && Sees(view, shop, w, plan) && forall r :: r in w.tables(k).rows ==> RowOk(shop, r)
    requires view(k).technicians != HolderIds(shop, plan.query.dealership, plan.st.skill)
             || view(k).bays != TypeIds(shop, plan.query.dealership, plan.st.bayType)
    ensures !SpareTechnician(shop, plan.query.dealership, plan.st) ==>
              |view(k).technicians| < |HolderIds(shop, plan.query.dealership, plan.st.skill)|
    ensures !SpareBay(shop, plan.query.dealership, plan.st) ==>
              |view(k).bays| < |TypeIds(shop, plan.query.dealership, plan.st.bayType)|
  {
    SeenWithin(shop, w, plan, view, k);
    assert view(k) == ViewAt(shop, w, plan, k);
    var r := SomeRival(shop, w.tables(k).rows, plan.query, plan.st, plan.iv);
    RivalTakes(shop, w.tables(k).rows, plan.query, plan.st, plan.iv, r);
    Shrinks(view(k).technicians, HolderIds(shop, plan.query.dealership, plan.st.skill));
    Shrinks(view(k).bays, TypeIds(shop, plan.query.dealership, plan.st.bayType));
  }

  /** How many attempts can be lost one resource at a time with T holders of the skill and B bays of the
      type: while rivals can pair them with unqualified partners, all but one of each; otherwise the
      first loss costs one of each. A kind without spare members needs at least two. */
  predicate RoomForLosses(T: nat, B: nat, spareTechnician: bool, spareBay: bool, budget: nat) {
    && budget + 2 + (if spareTechnician || spareBay then 0 else 1) <= T + B
    && (spareTechnician || T >= 2) && (spareBay || B >= 2)
  }

  lemma LostLeavesRoom(shop: Shop, w: World, req: Request, plan: Plan, o: Oracle, view: nat -> View, k: nat,
                       budget: nat)
    requires ShopOk(shop) && Observes(o, shop, w, plan) && Sees(view, shop, w, plan)
    requires budget >= 1 && LossesTakeOne(w, req, plan, view, k, budget)
    requires forall r :: r in w.tables(k + 2).rows ==> RowOk(shop, r)
    requires AllLost(o, req, plan, k, budget) && o.verdict(k + 2 * budget).Assigned?
    ensures var d := plan.query.dealership;
            RoomForLosses(|HolderIds(shop, d, plan.st.skill)|, |TypeIds(shop, d, plan.st.bayType)|,
                          SpareTechnician(shop, d, plan.st), SpareBay(shop, d, plan.st), budget)
  {
    OneTakenLosses(shop, w, req, plan, o, view, k, budget);
    OneTakenLosses(shop, w, req, plan, o, view, k + 2, budget - 1);
    SeenWithin(shop, w, plan, view, k);
    SeenWithin(shop, w, plan, view, k + 2);
    Glance(shop, w, plan, o, view, k);
    LostIsBeaten(shop, w, req, plan, o, view, k);
    SomebodyTaken(shop, w, plan, view, k + 2);
  }

  /** If every lost race takes at least one of the two chosen resources and no appointment breaks a
      foreign key, CONTENTION needs a dealership with that much room. */
  lemma ContentionBound(shop: Shop, w: World, req: Request, view: nat -> View)
    requires ShopOk(shop) && Check(shop, req).Ready? && LiveRecord(w.tables(1).records, req).None?
    requires forall k: nat, r :: r in w.tables(k).rows ==> RowOk(shop, r)
    requires var plan := Check(shop, req).plan;
             Sees(view, shop, w, plan) && LossesTakeOne(w, req, plan, view, FirstRead(req),
                                                        FullBudget(shop, req.dealership, plan.st))
    requires BookUnder(shop, w, req).Answer? && Contends(BookUnder(shop, w, req).outcome)
    ensures var d, st := req.dealership, Check(shop, req).plan.st;
            RoomForLosses(|HolderIds(shop, d, st.skill)|, |TypeIds(shop, d, st.bayType)|,
                          SpareTechnician(shop, d, st), SpareBay(shop, d, st),
                          FullBudget(shop, d, st))
  {
    var o := ContentionIsAllLost(shop, w, req, BookUnder(shop, w, req));
    CheckedRequest(shop, req);
    BudgetIs(shop, w, Check(shop, req).plan, o, FirstRead(req));
    LostLeavesRoom(shop, w, req, Check(shop, req).plan, o, view, FirstRead(req),
                   FullBudget(shop, req.dealership, Check(shop, req).plan.st));
  }

  // ----- A competitor's commit -----

  /** A row committed between two reads on the technician or the bay that the first of them chose. */
  lemma CommitTakesOne(shop: Shop, w: World, plan: Plan, o: Oracle, view: nat -> View, k: nat, m: nat, r: Row)
    requires ShopOk(shop) && Observes(o, shop, w, plan) && Sees(view, shop, w, plan)
    requires w.tables(m).rows == w.tables(k).rows + [r] && InDay(r, plan.query) && plan.iv.Overlaps(r.iv)
    requires o.verdict(k).Assigned? && (o.verdict(k).technician == r.technician || o.verdict(k).bay == r.bay)
    ensures OneTaken(view(k), view(m))
  {
    Glance(shop, w, plan, o, view, k);
    ViewTaken(shop, w, plan, view, k, m, r);
    TakenFrom(view(k), view(m), r.technician, r.bay);
  }

  lemma ViewTaken(shop: Shop, w: World, plan: Plan, view: nat -> View, k: nat, m: nat, r: Row)
    requires ShopOk(shop) && Sees(view, shop, w, plan)
    requires w.tables(m).rows == w.tables(k).rows + [r] && InDay(r, plan.query) && plan.iv.Overlaps(r.iv)
    ensures view(m).technicians == view(k).technicians - {r.technician} && view(m).bays == view(k).bays - {r.bay}
  {
    assert view(k) == ViewAt(shop, w, plan, k) && view(m) == ViewAt(shop, w, plan, m);
    RowTakes(shop, w.tables(k).rows, r, plan.query, plan.st, plan.iv);
  }
}
