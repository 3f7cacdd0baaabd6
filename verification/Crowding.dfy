/** The bound of module Contention is reached: dealerships of every size and kind where competitors who
    each take one resource of the request's next choice bring Book to CONTENTION. */
module Crowding {
  import opened Intervals
  import opened Policy
  import opened Assignment
  import opened Hours
  import opened Schema
  import opened Booking
  import opened Protocol
  import opened Tables
  import opened Races
  import opened Retry
  import opened Views
  import opened Transaction
  import opened Service
  import opened Conformance
  import opened Contention

  /** T technicians hold the skill and B bays have the type; there may be one more of each that do not. */
  datatype Crowd = Crowd(T: nat, B: nat, spareTechnician: bool, spareBay: bool, max: nat)

  /** How many attempts can be lost before the room is used up, or the minutes of the day are. */
  function Losses(c: Crowd): int {
    Min(c.T + c.B - 2 - if c.spareTechnician || c.spareBay then 0 else 1, DAY / MINUTE)
  }

  predicate Sizes(c: Crowd) {
    && c.T >= 1 && c.B >= 1 && c.max >= 1
    && (c.spareTechnician || c.T >= 2) && (c.spareBay || c.B >= 2)
  }

  // ----- The dealership -----

  function TechnicianList(c: Crowd): seq<TechnicianRow> {
    seq(c.T + if c.spareTechnician then 1 else 0, (i: nat) => TechnicianRow(i, 0, if i < c.T then [0] else [1]))
  }

  function BayList(c: Crowd): seq<BayRow> {
    seq(c.B + if c.spareBay then 1 else 0, (i: nat) => BayRow(i, 0, if i < c.B then General else Alignment))
  }

  /** Service 0 is the request's. The others take a minute; they let a holder work in another bay, another
      technician in a bay of the type, and a holder in a bay of the type. */
  function ShopOf(c: Crowd): Shop {
    Shop(map[0 := Dealership(FixedOffset(0), map[4 := OpeningHours(0, 1440)])],
         map[0 := ServiceType(DAY, 0, General), 1 := ServiceType(MINUTE, 0, Alignment),
             2 := ServiceType(MINUTE, 1, General), 3 := ServiceType(MINUTE, 0, General)],
         map[0 := VehicleRow(0, 0), 1 := VehicleRow(0, 0)], {0},
         TechnicianList(c), BayList(c), c.max, (d, k) => 0, (d, day) => 1)
  }

  const REQUEST: Request := Request(0, 0, 0, 0, None, 0)
  const QUERY: ScheduleQuery := ScheduleQuery(0, Interval(0, DAY), Some(0))
  const PLAN: Plan := Plan(ServiceType(DAY, 0, General), Interval(0, DAY), 0, QUERY, 0)

  lemma ClockIsGood(c: Crowd)
    ensures ClocksFit(ShopOf(c))
  {
    FixedOffsetFits(0, map[4 := OpeningHours(0, 1440)]);
    assert ShopOf(c).dealerships.Keys == {0};
  }

  lemma ShopIsGood(c: Crowd)
    requires Sizes(c)
    ensures ShopOk(ShopOf(c))
  {
  }

  lemma RequestIsReady(c: Crowd)
    ensures Check(ShopOf(c), REQUEST) == Ready(PLAN)
  {
    var dl := ShopOf(c).dealerships[0];
    assert DateOf(dl, 0) == 0 && Weekday(0) == 4;
    assert ValidateBookingTime(0, DAY, 0, dl) == Slot(Interval(0, DAY));
  }

  lemma Spares(c: Crowd)
    requires Sizes(c)
    ensures SpareTechnician(ShopOf(c), 0, PLAN.st) == c.spareTechnician && SpareBay(ShopOf(c), 0, PLAN.st) == c.spareBay
  {
    if c.spareTechnician {
      assert TechnicianList(c)[c.T] in ShopOf(c).technicians;
    }
    if c.spareBay {
      assert BayList(c)[c.B] in ShopOf(c).bays;
    }
  }

  // ----- The competitors -----

  /** Competitors take the technician or the bay that the request would choose next, with a partner that
      does not qualify if there is one, otherwise with the first of the other kind. With a spare
      technician they begin with the bays, else with the technicians. */
  function RivalTechnician(c: Crowd, k: nat): nat
    requires Sizes(c) && k < Losses(c)
  {
    if c.spareTechnician then (if k < c.B - 1 then c.T else k - (c.B - 1))
    else if k < c.T - 1 then k else 0
  }

  function RivalBay(c: Crowd, k: nat): nat
    requires Sizes(c) && k < Losses(c)
  {
    if c.spareTechnician then (if k < c.B - 1 then k else if c.spareBay then c.B else 0)
    else if k < c.T - 1 then (if c.spareBay then c.B else 0)
    else k - (c.T - 1) + if c.spareBay then 0 else 1
  }

  /** The requested job takes the whole day. Competitor k has minute k of it, on another vehicle. */
  function Rival(c: Crowd, k: nat): Row
    requires Sizes(c) && k < Losses(c)
  {
    var t, b := RivalTechnician(c, k), RivalBay(c, k);
    Row(k, 0, 1, 0, if t == c.T then 2 else if b == c.B then 1 else 3,
        if t == c.T then 1 else 0, if b == c.B then Alignment else General,
        t, b, Interval(k * MINUTE, (k + 1) * MINUTE), Confirmed)
  }

  function RivalRows(c: Crowd, n: nat): seq<Row>
    requires Sizes(c) && n <= Losses(c)
  {
    seq(n, k requires 0 <= k < n => Rival(c, k))
  }

  /** How many of the request's technicians and bays the first n competitors have taken. */
  function BusyTechnicians(c: Crowd, n: nat): nat
    requires Sizes(c)
  {
    if c.spareTechnician then Max(0, n - (c.B - 1)) else Min(n, c.T - 1)
  }

  function BusyBays(c: Crowd, n: nat): nat
    requires Sizes(c)
  {
    if c.spareTechnician then Min(n, c.B - 1)
    else Max(0, n - (c.T - 1)) + if c.spareBay || n == 0 then 0 else 1
  }

  lemma RivalInHours(c: Crowd, k: nat)
    requires Sizes(c) && k < Losses(c)
    ensures 0 <= Rival(c, k).iv.start < Rival(c, k).iv.end <= DAY
    ensures InHours(ShopOf(c), Rival(c, k))
  {
    var dl, r := ShopOf(c).dealerships[0], Rival(c, k);
    assert DateOf(dl, r.iv.start) == 0 && Weekday(0) == 4;
  }

  lemma RivalRowOk(c: Crowd, k: nat)
    requires Sizes(c) && k < Losses(c)
    ensures RowOk(ShopOf(c), Rival(c, k))
  {
    var shop, r := ShopOf(c), Rival(c, k);
    var t, b := TechnicianList(c)[r.technician], BayList(c)[r.bay];
    assert t in shop.technicians && t.id == r.technician && t.dealership == 0 && r.skill in t.skills;
    assert b in shop.bays && b.id == r.bay && b.dealership == 0 && b.kind == r.bayType;
    RivalService(c, k);
  }

  lemma RivalService(c: Crowd, k: nat)
    requires Sizes(c) && k < Losses(c)
    ensures var shop, r := ShopOf(c), Rival(c, k);
            r.service in shop.services && shop.services[r.service].skill == r.skill
              && shop.services[r.service].bayType == r.bayType
            && r.iv.Duration() == shop.services[r.service].duration
  {
  }

  lemma RivalsAreGood(c: Crowd, n: nat)
    requires Sizes(c) && n <= Losses(c)
    ensures DbOk(ShopOf(c), Db(RivalRows(c, n), map[])) && RowsInHours(ShopOf(c), RivalRows(c, n))
  {
    forall k | 0 <= k < n { RivalRowOk(c, k); }
    forall k | 0 <= k < n { RivalInHours(c, k); }
    forall j, k | 0 <= j < k < n ensures Apart(Rival(c, j), Rival(c, k)) {
      assert (j + 1) * MINUTE <= k * MINUTE;
    }
  }

  // ----- What the request sees -----

  lemma {:induction false} AllTechniciansHere(ts: seq<TechnicianRow>, d: Id)
    requires forall i :: 0 <= i < |ts| ==> ts[i].dealership == d
    ensures TechniciansAt(ts, d) == ts
  {
    if |ts| == 0 {
    } else {
      AllTechniciansHere(ts[..|ts| - 1], d);
    }
  }

  lemma {:induction false} AllBaysHere(bs: seq<BayRow>, d: Id)
    requires forall i :: 0 <= i < |bs| ==> bs[i].dealership == d
    ensures BaysAt(bs, d) == bs
  {
    if |bs| == 0 {
    } else {
      AllBaysHere(bs[..|bs| - 1], d);
    }
  }

  /** A resource that no competitor uses has nothing booked. */
  lemma {:induction false} Untouched(c: Crowd, n: nat, res: Resource)
    requires Sizes(c) && n <= Losses(c) && forall k :: 0 <= k < n ==> !Uses(Rival(c, k), res)
    ensures BookedFor(RivalRows(c, n), QUERY, res) == []
  {
    if n == 0 {
    } else {
      Untouched(c, n - 1, res);
      assert RivalRows(c, n) == RivalRows(c, n - 1) + [Rival(c, n - 1)];
      BookedForAppend(RivalRows(c, n - 1), Rival(c, n - 1), QUERY, res);
    }
  }

  /** A resource that a competitor uses is booked at an overlapping time. */
  lemma Touched(c: Crowd, n: nat, res: Resource, k: nat)
    requires Sizes(c) && n <= Losses(c) && k < n && Uses(Rival(c, k), res)
    ensures OverlapsAny(PLAN.iv, BookedFor(RivalRows(c, n), QUERY, res))
  {
    RivalInHours(c, k);
    assert RivalRows(c, n)[k] == Rival(c, k);
    assert Rivals(RivalRows(c, n), QUERY, PLAN.iv, Rival(c, k));
    BookedByRival(RivalRows(c, n), QUERY, PLAN.iv, res);
  }

  lemma TechnicianTaken(c: Crowd, n: nat, i: nat)
    requires Sizes(c) && n <= Losses(c) && i < c.T
    ensures var booked := BookedFor(RivalRows(c, n), QUERY, TheTechnician(i));
            if i < BusyTechnicians(c, n) then OverlapsAny(PLAN.iv, booked) else booked == []
  {
    if i < BusyTechnicians(c, n) {
      Touched(c, n, TheTechnician(i), if c.spareTechnician then c.B - 1 + i else i);
    } else {
      Untouched(c, n, TheTechnician(i));
    }
  }

  lemma BayTaken(c: Crowd, n: nat, j: nat)
    requires Sizes(c) && n <= Losses(c) && j < c.B
    ensures var booked := BookedFor(RivalRows(c, n), QUERY, TheBay(j));
            if j < BusyBays(c, n) then OverlapsAny(PLAN.iv, booked) else booked == []
  {
    if j < BusyBays(c, n) {
      Touched(c, n, TheBay(j),
              if c.spareTechnician then j
              else if c.spareBay then c.T - 1 + j
              else if j == 0 then 0
              else c.T - 2 + j);
    } else {
      Untouched(c, n, TheBay(j));
    }
  }

  lemma CrowdTechnician(c: Crowd, n: nat, ts: seq<Scheduled<Technician>>, i: nat)
    requires Sizes(c) && n <= Losses(c) && i < |TechnicianList(c)|
    requires ts == TechnicianDays(TechnicianList(c), RivalRows(c, n), QUERY)
    ensures ts[i].id == i && (PLAN.st.skill in ts[i].item.skills <==> i < c.T)
    ensures i < c.T ==> if i < BusyTechnicians(c, n) then OverlapsAny(PLAN.iv, ts[i].booked) else ts[i].booked == []
  {
    if i < c.T {
      TechnicianTaken(c, n, i);
    }
  }

  lemma CrowdBay(c: Crowd, n: nat, bs: seq<Scheduled<Bay>>, j: nat)
    requires Sizes(c) && n <= Losses(c) && j < |BayList(c)|
    requires bs == BayDays(BayList(c), RivalRows(c, n), QUERY)
    ensures bs[j].id == j && (bs[j].item.kind == PLAN.st.bayType <==> j < c.B)
    ensures j < c.B ==> if j < BusyBays(c, n) then OverlapsAny(PLAN.iv, bs[j].booked) else bs[j].booked == []
  {
    if j < c.B {
      BayTaken(c, n, j);
    }
  }

  lemma SomeLeft(c: Crowd, n: nat)
    requires Sizes(c) && n <= Losses(c)
    ensures BusyTechnicians(c, n) < c.T && BusyBays(c, n) < c.B
  {
  }

  lemma CrowdTechnicians(c: Crowd, n: nat, ts: seq<Scheduled<Technician>>)
    requires Sizes(c) && n <= Losses(c) && ts == TechnicianDays(TechnicianList(c), RivalRows(c, n), QUERY)
    ensures c.T <= |ts|
    ensures forall i :: 0 <= i < |ts| ==> ts[i].id == i && (PLAN.st.skill in ts[i].item.skills <==> i < c.T)
    ensures forall i :: 0 <= i < c.T ==>
              if i < BusyTechnicians(c, n) then OverlapsAny(PLAN.iv, ts[i].booked) else ts[i].booked == []
  {
    forall i: nat | i < |ts| { CrowdTechnician(c, n, ts, i); }
  }

  lemma CrowdBays(c: Crowd, n: nat, bs: seq<Scheduled<Bay>>)
    requires Sizes(c) && n <= Losses(c) && bs == BayDays(BayList(c), RivalRows(c, n), QUERY)
    ensures c.B <= |bs|
    ensures forall j :: 0 <= j < |bs| ==> bs[j].id == j && (bs[j].item.kind == PLAN.st.bayType <==> j < c.B)
    ensures forall j :: 0 <= j < c.B ==>
              if j < BusyBays(c, n) then OverlapsAny(PLAN.iv, bs[j].booked) else bs[j].booked == []
  {
    forall j: nat | j < |bs| { CrowdBay(c, n, bs, j); }
  }

  lemma CrowdDay(c: Crowd, n: nat) returns (ts: seq<Scheduled<Technician>>, bs: seq<Scheduled<Bay>>)
    requires Sizes(c) && n <= Losses(c)
    ensures ts == TechnicianDays(TechnicianList(c), RivalRows(c, n), QUERY)
            && bs == BayDays(BayList(c), RivalRows(c, n), QUERY)
    ensures DayScheduleOf(ShopOf(c), RivalRows(c, n), QUERY) == DaySchedule(ts, bs, [])
  {
    AllTechniciansHere(TechnicianList(c), 0);
    AllBaysHere(BayList(c), 0);
    Untouched(c, n, TheVehicle(0));
    ts, bs := TechnicianDays(TechnicianList(c), RivalRows(c, n), QUERY), BayDays(BayList(c), RivalRows(c, n), QUERY);
  }

  lemma CrowdChoice(c: Crowd, n: nat, ts: seq<Scheduled<Technician>>, bs: seq<Scheduled<Bay>>)
    requires Sizes(c) && n <= Losses(c)
    requires ts == TechnicianDays(TechnicianList(c), RivalRows(c, n), QUERY)
             && bs == BayDays(BayList(c), RivalRows(c, n), QUERY)
    ensures Select(DaySchedule(ts, bs, []), PLAN.st, PLAN.iv) == Assigned(BusyTechnicians(c, n), BusyBays(c, n))
  {
    CrowdTechnicians(c, n, ts);
    CrowdBays(c, n, bs);
    SomeLeft(c, n);
    LowestPairSelected(DaySchedule(ts, bs, []), PLAN.st, PLAN.iv, c.T, c.B, BusyTechnicians(c, n), BusyBays(c, n));
  }

  /** After n competitors the request would choose the next technician and the next bay. */
  lemma NextPair(c: Crowd, n: nat)
    requires Sizes(c) && n <= Losses(c)
    ensures Select(DayScheduleOf(ShopOf(c), RivalRows(c, n), QUERY), PLAN.st, PLAN.iv)
            == Assigned(BusyTechnicians(c, n), BusyBays(c, n))
  {
    var ts, bs := CrowdDay(c, n);
    CrowdChoice(c, n, ts, bs);
  }

  // ----- The run -----

  /** Between the read and the insert of attempt a, competitor a commits. */
  function CrowdWorld(c: Crowd, budget: nat): World
    requires Sizes(c) && budget <= Losses(c)
  {
    World((k: nat) => Db(RivalRows(c, Min(k / 2, budget)), map[]), (k: nat) => false, (k: nat) => false,
          (k: nat) => budget)
  }

  lemma RowsAt(c: Crowd, budget: nat, w: World, a: nat)
    requires Sizes(c) && budget <= Losses(c) && w == CrowdWorld(c, budget) && a <= budget
    ensures w.tables(1 + 2 * a).rows == RivalRows(c, a) && w.tables(2 + 2 * a).rows == RivalRows(c, Min(a + 1, budget))
  {
    assert (1 + 2 * a) / 2 == a && (2 + 2 * a) / 2 == a + 1;
  }

  /** Competitor a holds the technician or the bay that the request has just chosen. */
  lemma RivalConflicts(c: Crowd, a: nat, id: Id)
    requires Sizes(c) && a < Losses(c)
    ensures Violation(RivalRows(c, a + 1), NewRow(REQUEST, PLAN, BusyTechnicians(c, a), BusyBays(c, a), id)).Some?
  {
    var rows, row := RivalRows(c, a + 1), NewRow(REQUEST, PLAN, BusyTechnicians(c, a), BusyBays(c, a), id);
    RivalInHours(c, a);
    assert rows[a] == Rival(c, a);
    assert Excludes(TechnicianOverlap, row, rows[a]) || Excludes(BayOverlap, row, rows[a]);
  }

  lemma AttemptLost(c: Crowd, budget: nat, w: World, o: Oracle, a: nat)
    requires Sizes(c) && budget <= Losses(c) && w == CrowdWorld(c, budget) && a <= budget
             && Observes(o, ShopOf(c), w, PLAN)
    ensures o.verdict(1 + 2 * a) == Assigned(BusyTechnicians(c, a), BusyBays(c, a))
    ensures a < budget ==> LostAt(o, REQUEST, PLAN, 1 + 2 * a)
  {
    RowsAt(c, budget, w, a);
    NextPair(c, a);
    assert o.verdict(1 + 2 * a) == Select(DayAt(ShopOf(c), w, PLAN, 1 + 2 * a), PLAN.st, PLAN.iv);
    if a < budget {
      RivalConflicts(c, a, budget);
      var row := NewRow(REQUEST, PLAN, BusyTechnicians(c, a), BusyBays(c, a), budget);
      assert Beaten(w, 2 + 2 * a, row) && o.loses(2 + 2 * a, row);
    }
  }

  lemma {:induction false} AttemptsLost(c: Crowd, budget: nat, w: World, o: Oracle, a: nat)
    requires Sizes(c) && budget <= Losses(c) && w == CrowdWorld(c, budget) && a <= budget
             && Observes(o, ShopOf(c), w, PLAN)
    ensures AllLost(o, REQUEST, PLAN, 1 + 2 * a, budget - a)
    decreases budget - a
  {
    if a == budget {
    } else {
      AttemptLost(c, budget, w, o, a);
      AttemptsLost(c, budget, w, o, a + 1);
      assert 1 + 2 * a + 2 == 1 + 2 * (a + 1);
    }
  }

  lemma RivalTakesNext(c: Crowd, a: nat)
    requires Sizes(c) && a < Losses(c)
    ensures InDay(Rival(c, a), QUERY) && PLAN.iv.Overlaps(Rival(c, a).iv)
    ensures Rival(c, a).technician == BusyTechnicians(c, a) || Rival(c, a).bay == BusyBays(c, a)
    ensures RivalRows(c, a + 1) == RivalRows(c, a) + [Rival(c, a)]
  {
    RivalInHours(c, a);
  }

  /** Each lost attempt has lost exactly one of the two it chose, or both where nobody is spare. */
  lemma CrowdTakes(c: Crowd, budget: nat, w: World, o: Oracle, view: nat -> View, a: nat)
    requires Sizes(c) && budget <= Losses(c) && w == CrowdWorld(c, budget) && a < budget
    requires Observes(o, ShopOf(c), w, PLAN) && Sees(view, ShopOf(c), w, PLAN)
    ensures OneTaken(view(1 + 2 * a), view(1 + 2 * a + 2))
  {
    ShopIsGood(c);
    RowsAt(c, budget, w, a);
    RowsAt(c, budget, w, a + 1);
    AttemptLost(c, budget, w, o, a);
    RivalTakesNext(c, a);
    assert 1 + 2 * (a + 1) == 1 + 2 * a + 2;
    CommitTakesOne(ShopOf(c), w, PLAN, o, view, 1 + 2 * a, 1 + 2 * a + 2, Rival(c, a));
  }

  lemma {:induction false} CrowdTakesOne(c: Crowd, budget: nat, w: World, o: Oracle, view: nat -> View, a: nat)
    requires Sizes(c) && budget <= Losses(c) && w == CrowdWorld(c, budget) && a <= budget
    requires Observes(o, ShopOf(c), w, PLAN) && Sees(view, ShopOf(c), w, PLAN)
    ensures LossesTakeOne(w, REQUEST, PLAN, view, 1 + 2 * a, budget - a)
    decreases budget - a
  {
    if a == budget {
    } else {
      CrowdTakes(c, budget, w, o, view, a);
      CrowdTakesOne(c, budget, w, o, view, a + 1);
      assert 1 + 2 * a + 2 == 1 + 2 * (a + 1);
    }
  }

  lemma Counts(c: Crowd)
    requires Sizes(c)
    ensures |HolderIds(ShopOf(c), 0, PLAN.st.skill)| == c.T && |TypeIds(ShopOf(c), 0, PLAN.st.bayType)| == c.B
  {
    ShopIsGood(c);
    var ts, bs := CrowdDay(c, 0);
    CrowdTechnicians(c, 0, ts);
    CrowdBays(c, 0, bs);
    SkilledPrefix(ts, PLAN.st.skill, c.T);
    TypedPrefix(bs, PLAN.st.bayType, c.B);
    HoldersQualify(ShopOf(c), RivalRows(c, 0), QUERY, PLAN.st);
    TypesQualify(ShopOf(c), RivalRows(c, 0), QUERY, PLAN.st);
  }

  lemma EveryoneLoses(c: Crowd, budget: nat, w: World, o: Oracle)
    requires Sizes(c) && budget <= Losses(c) && w == CrowdWorld(c, budget) && budget == Max(c.max, Min(c.T, c.B) + 1)
    requires Observes(o, ShopOf(c), w, PLAN)
    ensures BudgetFor(0, c.max, o.qualified(1)) == budget
    ensures AllLost(o, REQUEST, PLAN, 1, budget) && o.verdict(1 + 2 * budget).Assigned?
  {
    ShopIsGood(c);
    Counts(c);
    BudgetIs(ShopOf(c), w, PLAN, o, 1);
    AttemptsLost(c, budget, w, o, 0);
    AttemptLost(c, budget, w, o, budget);
  }

  lemma CrowdEnds(c: Crowd, budget: nat, w: World, o: Oracle)
    requires Sizes(c) && budget <= Losses(c) && w == CrowdWorld(c, budget) && budget == Max(c.max, Min(c.T, c.B) + 1)
    requires OracleOk(o) && Observes(o, ShopOf(c), w, PLAN)
    requires o.found(1, Txn(REQUEST, Finding, None, None)) == FindIn(w, 1, Txn(REQUEST, Finding, None, None))
    ensures Ending(RunUnder(c.max, o, PLAN, 0, Txn(REQUEST, WantDay, None, None))) == Answer(CONTENDED, None, None)
  {
    EveryoneLoses(c, budget, w, o);
    VerdictNeverContends(ShopOf(c), w, PLAN, o);
    ReadyContends(c.max, w, REQUEST, PLAN, o);
  }

  lemma SomeObserver(shop: Shop, w: World, plan: Plan) returns (o: Oracle)
    ensures Observes(o, shop, w, plan)
  {
    OracleObserves(shop, w, plan);
    o := OracleOf(shop, w, plan);
  }

  lemma CrowdLosses(c: Crowd, budget: nat, w: World, view: nat -> View)
    requires Sizes(c) && budget <= Losses(c) && w == CrowdWorld(c, budget) && Sees(view, ShopOf(c), w, PLAN)
    ensures LossesTakeOne(w, REQUEST, PLAN, view, 1, budget)
  {
    var o := SomeObserver(ShopOf(c), w, PLAN);
    CrowdTakesOne(c, budget, w, o, view, 0);
  }

  lemma CrowdContends(c: Crowd, budget: nat, w: World, answer: BookResult)
    requires Sizes(c) && budget <= Losses(c) && w == CrowdWorld(c, budget) && budget == Max(c.max, Min(c.T, c.B) + 1)
    requires answer == BookUnder(ShopOf(c), w, REQUEST)
    ensures answer == Answer(CONTENDED, None, None)
  {
    var o := CrowdOracle(c, w, answer);
    CrowdEnds(c, budget, w, o);
  }

  lemma CrowdOracle(c: Crowd, w: World, answer: BookResult) returns (o: Oracle)
    requires Sizes(c) && answer == BookUnder(ShopOf(c), w, REQUEST)
    ensures OracleOk(o) && Observes(o, ShopOf(c), w, PLAN)
    ensures o.found(1, Txn(REQUEST, Finding, None, None)) == FindIn(w, 1, Txn(REQUEST, Finding, None, None))
    ensures answer == Ending(RunUnder(c.max, o, PLAN, 0, Txn(REQUEST, WantDay, None, None)))
  {
    RequestIsReady(c);
    o := BookByOracle(ShopOf(c), w, REQUEST, answer);
  }

  /** Every appointment takes as long as its service. */
  ghost predicate FullLength(shop: Shop, rows: seq<Row>) {
    forall r :: r in rows ==> r.service in shop.services && r.iv.Duration() == shop.services[r.service].duration
  }

  lemma RivalsTakeTheirTime(c: Crowd, n: nat)
    requires Sizes(c) && n <= Losses(c)
    ensures FullLength(ShopOf(c), RivalRows(c, n))
  {
    forall k | 0 <= k < n { RivalService(c, k); }
  }

  /** The tables are in order at every statement, and hold only appointments that Book could have made. */
  ghost predicate Regular(shop: Shop, db: Db) {
    DbOk(shop, db) && RowsInHours(shop, db.rows) && FullLength(shop, db.rows)
  }

  lemma RivalsAreRegular(c: Crowd, n: nat)
    requires Sizes(c) && n <= Losses(c)
    ensures Regular(ShopOf(c), Db(RivalRows(c, n), map[]))
  {
    RivalsAreGood(c, n);
    RivalsTakeTheirTime(c, n);
  }

  /** Room for the budget is room for that many competitors. */
  lemma RoomSuffices(c: Crowd, budget: nat)
    requires c.T >= 1 && c.B >= 1 && c.max >= 1 && 1 <= budget <= 1440
    requires RoomForLosses(c.T, c.B, c.spareTechnician, c.spareBay, budget)
    ensures Sizes(c) && budget <= Losses(c)
  {
    assert DAY / MINUTE == 1440;
  }

  lemma CrowdTables(c: Crowd, budget: nat, w: World)
    requires Sizes(c) && budget <= Losses(c) && w == CrowdWorld(c, budget)
    ensures forall k: nat :: Regular(ShopOf(c), w.tables(k))
  {
    forall k: nat ensures Regular(ShopOf(c), w.tables(k)) {
      RivalsAreRegular(c, Min(k / 2, budget));
    }
  }

  /** A dealership of that size and kind, open for the request. */
  ghost predicate IsCrowded(c: Crowd, shop: Shop, req: Request, plan: Plan) {
    && ShopOk(shop) && ClocksFit(shop) && shop.maxAttempts == c.max && Check(shop, req) == Ready(plan)
    && |HolderIds(shop, req.dealership, plan.st.skill)| == c.T
       && |TypeIds(shop, req.dealership, plan.st.bayType)| == c.B
    && SpareTechnician(shop, req.dealership, plan.st) == c.spareTechnician
       && SpareBay(shop, req.dealership, plan.st) == c.spareBay
  }

  lemma CrowdFits(c: Crowd)
    requires Sizes(c)
    ensures IsCrowded(c, ShopOf(c), REQUEST, PLAN)
  {
    ShopIsGood(c);
    ClockIsGood(c);
    RequestIsReady(c);
    Counts(c);
    Spares(c);
  }

  /** For every size and kind of dealership in which the losses have room for the whole budget, there are
      competitors with regular appointments, none in conflict with another, who each take at least one of
      the two resources chosen and bring a booking to CONTENTION. */
  lemma ContentionReached(c: Crowd) returns (shop: Shop, w: World, req: Request, plan: Plan, view: nat -> View)
    requires c.T >= 1 && c.B >= 1 && c.max >= 1 && Max(c.max, Min(c.T, c.B) + 1) <= 1440
    requires RoomForLosses(c.T, c.B, c.spareTechnician, c.spareBay, Max(c.max, Min(c.T, c.B) + 1))
    ensures IsCrowded(c, shop, req, plan)
    ensures forall k: nat :: Regular(shop, w.tables(k))
    ensures Sees(view, shop, w, plan) && LossesTakeOne(w, req, plan, view, FirstRead(req),
                                                       Max(c.max, Min(c.T, c.B) + 1))
    ensures BookUnder(shop, w, req) == Answer(CONTENDED, None, None)
  {
    var budget := Max(c.max, Min(c.T, c.B) + 1);
    RoomSuffices(c, budget);
    shop, w, req, plan := ShopOf(c), CrowdWorld(c, budget), REQUEST, PLAN;
    CrowdFits(c);
    CrowdTables(c, budget, w);
    view := SomeView(shop, w, plan);
    CrowdLosses(c, budget, w, view);
    CrowdContends(c, budget, w, BookUnder(shop, w, req));
  }

  // ----- The same as a run of the protocol -----

  lemma TakeAny(shop: Shop, init: State, evs: seq<Event>, s: State, ev: Event) returns (more: seq<Event>, s': State)
    requires RunTo(shop, init, evs) == Some(s) && Enabled(shop, s, ev)
    ensures RunTo(shop, init, more) == Some(s') && s' == Apply(shop, s, ev)
  {
    more, s' := evs + [ev], Apply(shop, s, ev);
    OneMore(shop, init, evs, ev);
  }

  /** The phase before attempt a; the first read settles the budget. */
  function AttemptPhase(c: Crowd, a: nat, budget: nat): Phase {
    if a == 0 then Reading(0, c.max) else LoopPhase(a, budget)
  }

  /** The first a competitors have committed, and the request is about to make its next attempt. */
  ghost predicate AtAttempt(c: Crowd, s: State, a: nat, budget: nat)
    requires Sizes(c) && a <= Losses(c)
  {
    && s.db == Db(RivalRows(c, a), map[]) && s.log == []
    && s.txns == [Txn(REQUEST, AttemptPhase(c, a, budget), None, None)]
  }

  /** Nothing keeps competitor a from committing its appointment. */
  lemma RivalCommits(c: Crowd, a: nat, s: State)
    requires Sizes(c) && a < Losses(c) && s.db == Db(RivalRows(c, a), map[])
    requires |s.txns| == 1 && s.txns[0].row.None?
    ensures Enabled(ShopOf(c), s, Foreign(Rival(c, a)))
    ensures Apply(ShopOf(c), s, Foreign(Rival(c, a))) == s.(db := Db(RivalRows(c, a + 1), map[]))
  {
    RivalRowOk(c, a);
    RivalAccepted(c, a);
    assert RivalRows(c, a) + [Rival(c, a)] == RivalRows(c, a + 1);
  }

  lemma RivalAccepted(c: Crowd, a: nat)
    requires Sizes(c) && a < Losses(c)
    ensures Violation(RivalRows(c, a), Rival(c, a)).None? && forall o :: o in RivalRows(c, a) ==> o.id != a
  {
    RivalsAreGood(c, a + 1);
    var rows := RivalRows(c, a + 1);
    forall o | o in RivalRows(c, a) ensures o.iv.start < o.iv.end && !Clash(Rival(c, a), o) && o.id != a {
      var k :| 0 <= k < a && RivalRows(c, a)[k] == o;
      assert RowOk(ShopOf(c), rows[k]) && Apart(rows[k], rows[a]);
    }
    assert rows[a] == Rival(c, a) && RowOk(ShopOf(c), rows[a]);
    ExclusionForbidsClashes(RivalRows(c, a), Rival(c, a));
  }

  /** One read: the next pair is chosen, the first time with the full budget. */
  lemma ReadsNextPair(c: Crowd, a: nat, budget: nat, t: Txn)
    requires Sizes(c) && a < Losses(c) && a < budget && budget == Max(c.max, Min(c.T, c.B) + 1)
    requires t == Txn(REQUEST, AttemptPhase(c, a, budget), None, None)
    ensures t.phase.Reading?
    ensures AfterRead(ShopOf(c), PLAN, RivalRows(c, a), t)
            == t.(phase := Inserting(a, budget, BusyTechnicians(c, a), BusyBays(c, a)))
  {
    NextPair(c, a);
    ShopIsGood(c);
    Counts(c);
    HoldersQualify(ShopOf(c), RivalRows(c, a), QUERY, PLAN.st);
    TypesQualify(ShopOf(c), RivalRows(c, a), QUERY, PLAN.st);
  }

  /** The only booking of a run reads, loses, looks for the last time, commits. */
  lemma SoleBookingActs(shop: Shop, init: State, evs: seq<Event>, s: State, action: Action, t: Txn)
    returns (more: seq<Event>, s': State)
    requires RunTo(shop, init, evs) == Some(s) && |s.txns| == 1 && CanAct(shop, s, 0, action)
    requires Fits(shop, s.txns[0], action) && t == LocalNext(shop, s.db.rows, s.txns[0], action)
    ensures RunTo(shop, init, more) == Some(s') && s' == s.(txns := [t])
  {
    more, s' := TakeAny(shop, init, evs, s, Step(0, action));
  }

  lemma SoleBookingLoses(shop: Shop, init: State, evs: seq<Event>, s: State, t: Txn)
    returns (more: seq<Event>, s': State)
    requires RunTo(shop, init, evs) == Some(s) && s.txns == [t] && t.phase.Inserting? && Check(shop, t.req).Ready?
    requires Violation(s.db.rows, RowFor(shop, t, 0)).Some?
    ensures RunTo(shop, init, more) == Some(s') && s' == s.(txns := [AfterLoss(t)])
  {
    more, s' := SoleBookingActs(shop, init, evs, s, Lose, AfterLoss(t));
  }

  lemma SoleBookingLooks(shop: Shop, init: State, evs: seq<Event>, s: State, t: Txn, plan: Plan, next: Txn)
    returns (more: seq<Event>, s': State)
    requires RunTo(shop, init, evs) == Some(s) && s.txns == [t] && t.phase.Rechecking?
    requires Check(shop, t.req) == Ready(plan) && next == AfterRecheck(shop, plan, s.db.rows, t)
    ensures RunTo(shop, init, more) == Some(s') && s' == s.(txns := [next])
  {
    more, s' := SoleBookingActs(shop, init, evs, s, Recheck, next);
  }

  lemma SoleBookingReads(shop: Shop, init: State, evs: seq<Event>, s: State, t: Txn, plan: Plan, next: Txn)
    returns (more: seq<Event>, s': State)
    requires RunTo(shop, init, evs) == Some(s) && s.txns == [t] && t.phase.Reading?
    requires Check(shop, t.req) == Ready(plan) && next == AfterRead(shop, plan, s.db.rows, t)
    ensures RunTo(shop, init, more) == Some(s') && s' == s.(txns := [next])
  {
    more, s' := SoleBookingActs(shop, init, evs, s, Read, next);
  }

  /** The request reads, competitor a commits, and the request's insert loses. */
  lemma AttemptInRun(c: Crowd, shop: Shop, a: nat, budget: nat, init: State, evs: seq<Event>, s: State)
    returns (more: seq<Event>, s': State)
    requires Sizes(c) && a < Losses(c) && a < budget && budget == Max(c.max, Min(c.T, c.B) + 1) && shop == ShopOf(c)
    requires RunTo(shop, init, evs) == Some(s) && AtAttempt(c, s, a, budget)
    ensures RunTo(shop, init, more) == Some(s') && AtAttempt(c, s', a + 1, budget)
  {
    RequestIsReady(c);
    ReadsNextPair(c, a, budget, s.txns[0]);
    var tech, bay := BusyTechnicians(c, a), BusyBays(c, a);
    more, s' := SoleBookingReads(shop, init, evs, s, s.txns[0], PLAN,
                                 Txn(REQUEST, Inserting(a, budget, tech, bay), None, None));
    RivalCommits(c, a, s');
    more, s' := TakeAny(shop, init, more, s', Foreign(Rival(c, a)));
    RivalConflicts(c, a, 0);
    more, s' := SoleBookingLoses(shop, init, more, s', Txn(REQUEST, Inserting(a, budget, tech, bay), None, None));
  }

  /** The booking has begun and holds its day lock. */
  lemma RunBegins(c: Crowd, shop: Shop, init: State, budget: nat) returns (evs: seq<Event>, s: State)
    requires Sizes(c) && shop == ShopOf(c) && init == InitialState(Db([], map[]), [REQUEST])
    ensures RunTo(shop, init, evs) == Some(s) && 0 <= Losses(c) && AtAttempt(c, s, 0, budget)
  {
    RequestIsReady(c);
    evs, s := TakeAny(shop, init, [], init, Step(0, Start));
    evs, s := TakeAny(shop, init, evs, s, Step(0, LockDay));
  }

  lemma {:induction false} AttemptsInRun(c: Crowd, shop: Shop, init: State, a: nat, budget: nat)
    returns (evs: seq<Event>, s: State)
    requires Sizes(c) && a <= Losses(c) && a <= budget && budget == Max(c.max, Min(c.T, c.B) + 1)
    requires shop == ShopOf(c) && init == InitialState(Db([], map[]), [REQUEST])
    ensures RunTo(shop, init, evs) == Some(s) && AtAttempt(c, s, a, budget)
  {
    if a == 0 {
      evs, s := RunBegins(c, shop, init, budget);
    } else {
      var n := a - 1;
      evs, s := AttemptsInRun(c, shop, init, n, budget);
      evs, s := AttemptInRun(c, shop, n, budget, init, evs, s);
    }
  }

  lemma SoleBookingCommits(shop: Shop, init: State, evs: seq<Event>, s: State, req: Request, outcome: Outcome)
    returns (more: seq<Event>, s': State)
    requires RunTo(shop, init, evs) == Some(s) && s.txns == [Txn(req, Committing(outcome, false), None, None)]
    ensures RunTo(shop, init, more) == Some(s') && s'.db == s.db
            && s'.log == s.log + [Entry(0, req, outcome, None, None)]
  {
    more, s' := TakeAny(shop, init, evs, s, Step(0, Commit));
  }

  lemma LastLookContends(c: Crowd, n: nat, t: Txn)
    requires Sizes(c) && n <= Losses(c) && t.req == REQUEST
    ensures AfterRecheck(ShopOf(c), PLAN, RivalRows(c, n), t) == t.(phase := Committing(CONTENDED, false))
  {
    NextPair(c, n);
  }

  /** The last look still finds a pair, so the request is told CONTENTION. */
  lemma RunContends(c: Crowd, shop: Shop, init: State, budget: nat) returns (evs: seq<Event>, s: State)
    requires Sizes(c) && budget <= Losses(c) && budget == Max(c.max, Min(c.T, c.B) + 1)
    requires shop == ShopOf(c) && init == InitialState(Db([], map[]), [REQUEST])
    ensures RunTo(shop, init, evs) == Some(s)
    ensures s.db == Db(RivalRows(c, budget), map[]) && s.log == [Entry(0, REQUEST, CONTENDED, None, None)]
  {
    evs, s := AttemptsInRun(c, shop, init, budget, budget);
    RequestIsReady(c);
    LastLookContends(c, budget, s.txns[0]);
    evs, s := SoleBookingLooks(shop, init, evs, s, s.txns[0], PLAN, s.txns[0].(phase := Committing(CONTENDED, false)));
    evs, s := SoleBookingCommits(shop, init, evs, s, REQUEST, CONTENDED);
  }

  /** For every such size and kind of dealership there is a run of the protocol, from empty tables, of one
      booking and foreign writers with regular appointments, in which the booking is told CONTENTION. */
  lemma ContentionInRun(c: Crowd) returns (shop: Shop, req: Request, plan: Plan, evs: seq<Event>, s: State)
    requires c.T >= 1 && c.B >= 1 && c.max >= 1 && Max(c.max, Min(c.T, c.B) + 1) <= 1440
    requires RoomForLosses(c.T, c.B, c.spareTechnician, c.spareBay, Max(c.max, Min(c.T, c.B) + 1))
    ensures IsCrowded(c, shop, req, plan)
    ensures RunTo(shop, InitialState(Db([], map[]), [req]), evs) == Some(s) && Regular(shop, s.db)
    ensures s.log == [Entry(0, req, CONTENDED, None, None)]
  {
    var budget := Max(c.max, Min(c.T, c.B) + 1);
    RoomSuffices(c, budget);
    CrowdFits(c);
    RivalsAreRegular(c, budget);
    shop, req, plan := ShopOf(c), REQUEST, PLAN;
    evs, s := RunContends(c, shop, InitialState(Db([], map[]), [req]), budget);
  }
}
