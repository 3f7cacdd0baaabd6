/** The one-pass loader of a dealership-day (internal/repository/postgres/repository.go). */
module Loader {
  import opened Intervals
  import opened Policy
  import opened Assignment
  import opened Schema

  // ----- Listing resources -----

  lemma {:induction false} TechniciansAtUnique(ts: seq<TechnicianRow>, d: Id)
    requires TechniciansAscend(ts)
    ensures TechniciansAscend(TechniciansAt(ts, d))
  {
    if |ts| == 0 {
    } else {
      var n := |ts| - 1;
      TechniciansAtUnique(ts[..n], d);
      var before := TechniciansAt(ts[..n], d);
      TechniciansAtMembers(ts[..n], d);
      forall j | 0 <= j < |before| ensures before[j].id < ts[n].id {
        assert before[j] in ts[..n];
        var i :| 0 <= i < n && ts[i] == before[j];
      }
    }
  }

  lemma {:induction false} BaysAtUnique(bs: seq<BayRow>, d: Id)
    requires BaysAscend(bs)
    ensures BaysAscend(BaysAt(bs, d))
  {
    if |bs| == 0 {
    } else {
      var n := |bs| - 1;
      BaysAtUnique(bs[..n], d);
      var before := BaysAt(bs[..n], d);
      BaysAtMembers(bs[..n], d);
      forall j | 0 <= j < |before| ensures before[j].id < bs[n].id {
        assert before[j] in bs[..n];
        var i :| 0 <= i < n && bs[i] == before[j];
      }
    }
  }

  // ----- The loader -----

  /** The index map finds exactly the members of s by their id. */
  ghost predicate Indexes<R>(index: map<Id, nat>, s: seq<Scheduled<R>>) {
    && (forall k :: 0 <= k < |s| ==> s[k].id in index && index[s[k].id] == k)
    && (forall i :: i in index ==> index[i] < |s| && s[index[i]].id == i)
  }

  method ListTechnicians(at: seq<TechnicianRow>) returns (s: seq<Scheduled<Technician>>, index: map<Id, nat>)
    requires TechniciansAscend(at)
    ensures |s| == |at| && forall k :: 0 <= k < |s| ==> s[k] == Scheduled(at[k].id, Technician(at[k].skills), [])
    ensures Indexes(index, s)
  {
    s, index := [], map[];
    for n := 0 to |at|
      invariant |s| == n && forall k :: 0 <= k < n ==> s[k] == Scheduled(at[k].id, Technician(at[k].skills), [])
      invariant Indexes(index, s)
    {
      assert forall k :: 0 <= k < n ==> s[k].id == at[k].id < at[n].id;
      index := index[at[n].id := |s|];
      s := s + [Scheduled(at[n].id, Technician(at[n].skills), [])];
    }
  }

  method ListBays(at: seq<BayRow>) returns (s: seq<Scheduled<Bay>>, index: map<Id, nat>)
    requires BaysAscend(at)
    ensures |s| == |at| && forall k :: 0 <= k < |s| ==> s[k] == Scheduled(at[k].id, Bay(at[k].kind), [])
    ensures Indexes(index, s)
  {
    s, index := [], map[];
    for n := 0 to |at|
      invariant |s| == n && forall k :: 0 <= k < n ==> s[k] == Scheduled(at[k].id, Bay(at[k].kind), [])
      invariant Indexes(index, s)
    {
      assert forall k :: 0 <= k < n ==> s[k].id == at[k].id < at[n].id;
      index := index[at[n].id := |s|];
      s := s + [Scheduled(at[n].id, Bay(at[n].kind), [])];
    }
  }

  /** Appends the interval to the member with the given id, if there is one. */
  method Append<R>(s: seq<Scheduled<R>>, index: map<Id, nat>, id: Id, iv: Interval) returns (r: seq<Scheduled<R>>)
    requires Indexes(index, s)
    ensures |r| == |s| && Indexes(index, r)
    ensures forall k :: 0 <= k < |s| ==>
              r[k] == s[k].(booked := s[k].booked + if s[k].id == id then [iv] else [])
  {
    if id in index {
      var k := index[id];
      r := s[k := s[k].(booked := s[k].booked + [iv])];
    } else {
      r := s;
    }
  }

  /** Reads the technicians, the bays and then the rows of the day once, appending each row's
      interval to the technician, the bay and possibly the queried vehicle it belongs to. */
  method LoadDay(shop: Shop, rows: seq<Row>, q: ScheduleQuery) returns (s: DaySchedule)
    requires ShopOk(shop)
    ensures s == DayScheduleOf(shop, rows, q)
  {
    TechniciansAtUnique(shop.technicians, q.dealership);
    BaysAtUnique(shop.bays, q.dealership);
    var techsAt := TechniciansAt(shop.technicians, q.dealership);
    var baysAt := BaysAt(shop.bays, q.dealership);
    s := FillDay(techsAt, baysAt, rows, q);
  }

  method FillDay(techsAt: seq<TechnicianRow>, baysAt: seq<BayRow>, rows: seq<Row>, q: ScheduleQuery)
    returns (s: DaySchedule)
    requires TechniciansAscend(techsAt)
    requires BaysAscend(baysAt)
    ensures s == DaySchedule(
                   TechnicianDays(techsAt, rows, q), BayDays(baysAt, rows, q),
                   if q.vehicle.Some? then BookedFor(rows, q, TheVehicle(q.vehicle.value)) else [])
  {
    var techs, techIndex := ListTechnicians(techsAt);
    var bays, bayIndex := ListBays(baysAt);
    var vehicleBooked := [];
    for n := 0 to |rows|
      invariant techs == TechnicianDays(techsAt, rows[..n], q) && Indexes(techIndex, techs)
      invariant bays == BayDays(baysAt, rows[..n], q) && Indexes(bayIndex, bays)
      invariant vehicleBooked == if q.vehicle.Some? then BookedFor(rows[..n], q, TheVehicle(q.vehicle.value)) else []
    {
      var r := rows[n];
      TechnicianDaysAppend(techsAt, rows[..n], r, q);
      BayDaysAppend(baysAt, rows[..n], r, q);
      if q.vehicle.Some? {
        BookedForAppend(rows[..n], r, q, TheVehicle(q.vehicle.value));
      }
      if InDay(r, q) {
        techs := Append(techs, techIndex, r.technician, r.iv);
        bays := Append(bays, bayIndex, r.bay, r.iv);
        if q.vehicle.Some? && r.vehicle == q.vehicle.value {
          vehicleBooked := vehicleBooked + [r.iv];
        }
      }
      assert rows[..n + 1] == rows[..n] + [r];
      assert forall booked: seq<Interval> :: booked + [] == booked;
      assert techs == TechnicianDays(techsAt, rows[..n] + [r], q);
      assert bays == BayDays(baysAt, rows[..n] + [r], q);
    }
    assert rows[..|rows|] == rows;
    s := DaySchedule(techs, bays, vehicleBooked);
  }

  // ----- Conservation -----

  function TotalBooked<R>(s: seq<Scheduled<R>>): nat {
    if |s| == 0 then 0 else TotalBooked(s[..|s| - 1]) + |s[|s| - 1].booked|
  }

  function CountInDay(rows: seq<Row>, q: ScheduleQuery): nat {
    if |rows| == 0 then 0
    else CountInDay(rows[..|rows| - 1], q) + if InDay(rows[|rows| - 1], q) then 1 else 0
  }

  lemma {:induction false} TotalBookedEmpty<R>(s: seq<Scheduled<R>>)
    requires forall k :: 0 <= k < |s| ==> s[k].booked == []
    ensures TotalBooked(s) == 0
  {
    if |s| == 0 {
    } else {
      TotalBookedEmpty(s[..|s| - 1]);
    }
  }

  lemma {:induction false} TotalBookedGrows<R>(s: seq<Scheduled<R>>, r: seq<Scheduled<R>>, at: nat, iv: Interval)
    requires |r| == |s| && at < |s|
    requires forall k :: 0 <= k < |s| ==> r[k].booked == if k == at then s[k].booked + [iv] else s[k].booked
    ensures TotalBooked(r) == TotalBooked(s) + 1
  {
    var n := |s| - 1;
    if at < n {
      TotalBookedGrows(s[..n], r[..n], at, iv);
    } else {
      TotalBookedSame(s[..n], r[..n]);
    }
  }

  lemma {:induction false} TotalBookedSame<R>(s: seq<Scheduled<R>>, r: seq<Scheduled<R>>)
    requires |r| == |s| && forall k :: 0 <= k < |s| ==> r[k].booked == s[k].booked
    ensures TotalBooked(r) == TotalBooked(s)
  {
    if |s| == 0 {
    } else {
      TotalBookedSame(s[..|s| - 1], r[..|s| - 1]);
    }
  }

  lemma TechnicianTotalAppend(shop: Shop, rows: seq<Row>, r: Row, q: ScheduleQuery)
    requires ShopOk(shop) && RowOk(shop, r)
    ensures var techs := TechniciansAt(shop.technicians, q.dealership);
            TotalBooked(TechnicianDays(techs, rows + [r], q)) ==
              TotalBooked(TechnicianDays(techs, rows, q)) + if InDay(r, q) then 1 else 0
  {
    var techs := TechniciansAt(shop.technicians, q.dealership);
    TechnicianDaysAppend(techs, rows, r, q);
    if InDay(r, q) {
      TechniciansAtUnique(shop.technicians, q.dealership);
      TechniciansAtMembers(shop.technicians, q.dealership);
      var t :| t in shop.technicians && t.id == r.technician && t.dealership == r.dealership;
      var i :| 0 <= i < |techs| && techs[i] == t;
      assert forall k :: 0 <= k < |techs| ==> (techs[k].id == r.technician <==> k == i);
      TotalBookedGrows(TechnicianDays(techs, rows, q), TechnicianDays(techs, rows + [r], q), i, r.iv);
    } else {
      TotalBookedSame(TechnicianDays(techs, rows, q), TechnicianDays(techs, rows + [r], q));
    }
  }

  lemma BayTotalAppend(shop: Shop, rows: seq<Row>, r: Row, q: ScheduleQuery)
    requires ShopOk(shop) && RowOk(shop, r)
    ensures var bays := BaysAt(shop.bays, q.dealership);
            TotalBooked(BayDays(bays, rows + [r], q)) ==
              TotalBooked(BayDays(bays, rows, q)) + if InDay(r, q) then 1 else 0
  {
    var bays := BaysAt(shop.bays, q.dealership);
    BayDaysAppend(bays, rows, r, q);
    if InDay(r, q) {
      BaysAtUnique(shop.bays, q.dealership);
      BaysAtMembers(shop.bays, q.dealership);
      var b :| b in shop.bays && b.id == r.bay && b.dealership == r.dealership;
      var i :| 0 <= i < |bays| && bays[i] == b;
      assert forall k :: 0 <= k < |bays| ==> (bays[k].id == r.bay <==> k == i);
      TotalBookedGrows(BayDays(bays, rows, q), BayDays(bays, rows + [r], q), i, r.iv);
    } else {
      TotalBookedSame(BayDays(bays, rows, q), BayDays(bays, rows + [r], q));
    }
  }

  lemma {:induction false} TechnicianTotals(shop: Shop, rows: seq<Row>, q: ScheduleQuery)
    requires ShopOk(shop) && forall k :: 0 <= k < |rows| ==> RowOk(shop, rows[k])
    ensures TotalBooked(TechnicianDays(TechniciansAt(shop.technicians, q.dealership), rows, q)) == CountInDay(rows, q)
  {
    if |rows| == 0 {
      TotalBookedEmpty(TechnicianDays(TechniciansAt(shop.technicians, q.dealership), rows, q));
    } else {
      var before, last := rows[..|rows| - 1], rows[|rows| - 1];
      TechnicianTotals(shop, before, q);
      TechnicianTotalAppend(shop, before, last, q);
      assert rows == before + [last];
    }
  }

  lemma {:induction false} BayTotals(shop: Shop, rows: seq<Row>, q: ScheduleQuery)
    requires ShopOk(shop) && forall k :: 0 <= k < |rows| ==> RowOk(shop, rows[k])
    ensures TotalBooked(BayDays(BaysAt(shop.bays, q.dealership), rows, q)) == CountInDay(rows, q)
  {
    if |rows| == 0 {
      TotalBookedEmpty(BayDays(BaysAt(shop.bays, q.dealership), rows, q));
    } else {
      var before, last := rows[..|rows| - 1], rows[|rows| - 1];
      BayTotals(shop, before, q);
      BayTotalAppend(shop, before, last, q);
      assert rows == before + [last];
    }
  }

  /** Every confirmed row of the day is counted once at a technician and once at a bay. */
  lemma LoaderConserves(shop: Shop, rows: seq<Row>, q: ScheduleQuery)
    requires ShopOk(shop) && forall k :: 0 <= k < |rows| ==> RowOk(shop, rows[k])
    ensures TotalBooked(DayScheduleOf(shop, rows, q).technicians) == CountInDay(rows, q)
    ensures TotalBooked(DayScheduleOf(shop, rows, q).bays) == CountInDay(rows, q)
  {
    TechnicianTotals(shop, rows, q);
    BayTotals(shop, rows, q);
  }

  // ----- The rows come in no particular order -----

  lemma BookedForWithout(rows: seq<Row>, k: nat, q: ScheduleQuery, res: Resource)
    requires k < |rows|
    ensures multiset(BookedFor(rows, q, res)) ==
              multiset(BookedFor(rows[..k] + rows[k + 1..], q, res))
              + multiset(if InDay(rows[k], q) && Uses(rows[k], res) then [rows[k].iv] else [])
  {
    var before, after := rows[..k], rows[k + 1..];
    assert rows == (before + [rows[k]]) + after;
    BookedForConcat(before + [rows[k]], after, q, res);
    BookedForConcat(before, after, q, res);
    BookedForAppend(before, rows[k], q, res);
  }

  lemma {:induction false} BookedForIgnoresOrder(a: seq<Row>, b: seq<Row>, q: ScheduleQuery, res: Resource)
    requires multiset(a) == multiset(b)
    ensures multiset(BookedFor(a, q, res)) == multiset(BookedFor(b, q, res))
  {
    if |a| == 0 {
      assert |multiset(b)| == 0;
    } else {
      var n := |a| - 1;
      assert a[n] in multiset(b);
      var k :| 0 <= k < |b| && b[k] == a[n];
      assert a[..n] + a[n + 1..] == a[..n];
      MultisetWithout(a, n);
      MultisetWithout(b, k);
      BookedForIgnoresOrder(a[..n], b[..k] + b[k + 1..], q, res);
      BookedForWithout(a, n, q, res);
      BookedForWithout(b, k, q, res);
    }
  }

  /** The query has no ORDER BY: whatever order the rows arrive in, the selection is the same. */
  lemma RowOrderIrrelevant(shop: Shop, a: seq<Row>, b: seq<Row>, q: ScheduleQuery, st: ServiceType, iv: Interval)
    requires multiset(a) == multiset(b)
    ensures Select(DayScheduleOf(shop, a, q), st, iv) == Select(DayScheduleOf(shop, b, q), st, iv)
  {
    var s, r := DayScheduleOf(shop, a, q), DayScheduleOf(shop, b, q);
    forall res ensures multiset(BookedFor(a, q, res)) == multiset(BookedFor(b, q, res)) {
      BookedForIgnoresOrder(a, b, q, res);
    }
    SameShapes(s.technicians, r.technicians);
    SameShapes(s.bays, r.bays);
    SelectIgnoresOrder(s, r, st, iv);
  }

  lemma SameShapes<R(!new)>(p: seq<Scheduled<R>>, q: seq<Scheduled<R>>)
    requires |p| == |q| && forall k :: 0 <= k < |p| ==> Shape(p[k]) == Shape(q[k])
    ensures Shapes(p) == Shapes(q)
  {
    forall x ensures x in Shapes(p) <==> x in Shapes(q) {
      if x in Shapes(p) {
        var k :| 0 <= k < |p| && Shape(p[k]) == x;
        assert q[k] in q;
      }
      if x in Shapes(q) {
        var k :| 0 <= k < |q| && Shape(q[k]) == x;
        assert p[k] in p;
      }
    }
  }
}
