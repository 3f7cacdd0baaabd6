/** The least-loaded choice keeps the day's work level (internal/domain/policy.go, assign.go). */
module Balance {
  import opened Intervals
  import opened Policy
  import opened Assignment
  import opened Hours
  import opened Schema
  import opened Booking
  import opened Safety
  import opened LastSlots
  import opened Alone

  ghost predicate Holder(shop: Shop, d: Id, skill: Id, t: TechnicianRow) {
    t in shop.technicians && t.dealership == d && skill in t.skills
  }

  ghost predicate OfType(shop: Shop, d: Id, kind: BayType, b: BayRow) {
    b in shop.bays && b.dealership == d && b.kind == kind
  }

  /** The confirmed minutes of a resource on the day. */
  function MinutesOf(rows: seq<Row>, q: ScheduleQuery, res: Resource): int {
    LoadOf(BookedFor(rows, q, res))
  }

  /** No holder of the skill has more than the given number of minutes more than another. */
  ghost predicate TechniciansLevel(shop: Shop, rows: seq<Row>, q: ScheduleQuery, skill: Id, gap: int) {
    forall t, u :: Holder(shop, q.dealership, skill, t) && Holder(shop, q.dealership, skill, u) ==>
      MinutesOf(rows, q, TheTechnician(t.id)) <= MinutesOf(rows, q, TheTechnician(u.id)) + gap
  }

  ghost predicate BaysLevel(shop: Shop, rows: seq<Row>, q: ScheduleQuery, kind: BayType, gap: int) {
    forall b, c :: OfType(shop, q.dealership, kind, b) && OfType(shop, q.dealership, kind, c) ==>
      MinutesOf(rows, q, TheBay(b.id)) <= MinutesOf(rows, q, TheBay(c.id)) + gap
  }

  /** The tables after Book has served the requests one after the other. */
  ghost function BookedInTurn(shop: Shop, db: Db, reqs: seq<Request>, ids: nat -> Id): Db {
    if |reqs| == 0 then db
    else
      var n := |reqs| - 1;
      AfterBook(shop, BookedInTurn(shop, db, reqs[..n], ids), reqs[n], ids(n))
  }

  /** The longest of the rows, in minutes. */
  function Longest(rows: seq<Row>): nat {
    if |rows| == 0 then 0
    else Max(Longest(rows[..|rows| - 1]), WholeMinutes(rows[|rows| - 1].iv.Duration()))
  }

  // ----- One booking -----

  /** The vehicle of a query has no influence on the days of technicians and bays. */
  lemma {:induction false} SameDaySameBookings(rows: seq<Row>, q: ScheduleQuery, p: ScheduleQuery, res: Resource)
    requires q.dealership == p.dealership && q.day == p.day
    ensures BookedFor(rows, q, res) == BookedFor(rows, p, res)
  {
    if |rows| == 0 {
    } else {
      SameDaySameBookings(rows[..|rows| - 1], q, p, res);
    }
  }

  lemma MinutesAfter(rows: seq<Row>, r: Row, q: ScheduleQuery, res: Resource)
    ensures MinutesOf(rows + [r], q, res) ==
              MinutesOf(rows, q, res) + if InDay(r, q) && Uses(r, res) then WholeMinutes(r.iv.Duration()) else 0
  {
    BookedForAppend(rows, r, q, res);
    LoadAppend(BookedFor(rows, q, res), r.iv);
  }

  /** Among free holders the chosen technician has the fewest minutes. */
  lemma ChosenTechnicianLeast(shop: Shop, rows: seq<Row>, q: ScheduleQuery, st: ServiceType, iv: Interval,
                              t: TechnicianRow)
    requires Select(DayScheduleOf(shop, rows, q), st, iv).Assigned?
    requires Holder(shop, q.dealership, st.skill, t) && !OverlapsAny(iv, BookedFor(rows, q, TheTechnician(t.id)))
    ensures MinutesOf(rows, q, TheTechnician(Select(DayScheduleOf(shop, rows, q), st, iv).technician))
            <= MinutesOf(rows, q, TheTechnician(t.id))
  {
    var s := DayScheduleOf(shop, rows, q);
    SelectCharacterised(s, st, iv);
    var x :| FreeTechnician(s, st, iv, x) && x.id == Select(s, st, iv).technician
             && forall o :: FreeTechnician(s, st, iv, o) ==> !Before(CandidateOf(o), CandidateOf(x));
    TechnicianDayMember(shop, rows, q, x);
    var y := TechnicianListed(shop, rows, q, t);
    assert FreeTechnician(s, st, iv, y);
  }

  lemma ChosenBayLeast(shop: Shop, rows: seq<Row>, q: ScheduleQuery, st: ServiceType, iv: Interval, b: BayRow)
    requires Select(DayScheduleOf(shop, rows, q), st, iv).Assigned?
    requires OfType(shop, q.dealership, st.bayType, b) && !OverlapsAny(iv, BookedFor(rows, q, TheBay(b.id)))
    ensures MinutesOf(rows, q, TheBay(Select(DayScheduleOf(shop, rows, q), st, iv).bay))
            <= MinutesOf(rows, q, TheBay(b.id))
  {
    var s := DayScheduleOf(shop, rows, q);
    SelectCharacterised(s, st, iv);
    var x :| FreeBay(s, st, iv, x) && x.id == Select(s, st, iv).bay
             && forall o :: FreeBay(s, st, iv, o) ==> !Before(CandidateOf(o), CandidateOf(x));
    BayDayMember(shop, rows, q, x);
    var y := BayListed(shop, rows, q, b);
    assert FreeBay(s, st, iv, y);
  }

  ghost predicate HoldersFree(shop: Shop, rows: seq<Row>, q: ScheduleQuery, skill: Id, iv: Interval) {
    forall t :: Holder(shop, q.dealership, skill, t) ==> !OverlapsAny(iv, BookedFor(rows, q, TheTechnician(t.id)))
  }

  ghost predicate BaysFree(shop: Shop, rows: seq<Row>, q: ScheduleQuery, kind: BayType, iv: Interval) {
    forall b :: OfType(shop, q.dealership, kind, b) ==> !OverlapsAny(iv, BookedFor(rows, q, TheBay(b.id)))
  }

  lemma TechnicianStep(shop: Shop, rows: seq<Row>, r: Row, q: ScheduleQuery, skill: Id, gap: nat)
    requires TechniciansLevel(shop, rows, q, skill, gap) && r.iv.start <= r.iv.end
    requires forall t :: Holder(shop, q.dealership, skill, t) ==>
               MinutesOf(rows, q, TheTechnician(r.technician)) <= MinutesOf(rows, q, TheTechnician(t.id))
    ensures TechniciansLevel(shop, rows + [r], q, skill, Max(gap, WholeMinutes(r.iv.Duration())))
  {
    forall t, u | Holder(shop, q.dealership, skill, t) && Holder(shop, q.dealership, skill, u)
      ensures MinutesOf(rows + [r], q, TheTechnician(t.id))
              <= MinutesOf(rows + [r], q, TheTechnician(u.id)) + Max(gap, WholeMinutes(r.iv.Duration()))
    {
      MinutesAfter(rows, r, q, TheTechnician(t.id));
      MinutesAfter(rows, r, q, TheTechnician(u.id));
    }
  }

  lemma BayStep(shop: Shop, rows: seq<Row>, r: Row, q: ScheduleQuery, kind: BayType, gap: nat)
    requires BaysLevel(shop, rows, q, kind, gap) && r.iv.start <= r.iv.end
    requires forall b :: OfType(shop, q.dealership, kind, b) ==>
               MinutesOf(rows, q, TheBay(r.bay)) <= MinutesOf(rows, q, TheBay(b.id))
    ensures BaysLevel(shop, rows + [r], q, kind, Max(gap, WholeMinutes(r.iv.Duration())))
  {
    forall b, c | OfType(shop, q.dealership, kind, b) && OfType(shop, q.dealership, kind, c)
      ensures MinutesOf(rows + [r], q, TheBay(b.id))
              <= MinutesOf(rows + [r], q, TheBay(c.id)) + Max(gap, WholeMinutes(r.iv.Duration()))
    {
      MinutesAfter(rows, r, q, TheBay(b.id));
      MinutesAfter(rows, r, q, TheBay(c.id));
    }
  }

  // ----- Any number of bookings -----

  /** All requests are for services of one skill on one day, and every holder of the skill is free at
      each requested interval when its turn comes. */
  ghost predicate OneSkillDay(shop: Shop, db: Db, reqs: seq<Request>, ids: nat -> Id, q: ScheduleQuery, skill: Id) {
    |reqs| == 0 ||
    var n := |reqs| - 1;
    && OneSkillDay(shop, db, reqs[..n], ids, q, skill)
    && (Check(shop, reqs[n]).Ready? ==>
          var plan := Check(shop, reqs[n]).plan;
          plan.query.dealership == q.dealership && plan.query.day == q.day && plan.st.skill == skill
          && HoldersFree(shop, BookedInTurn(shop, db, reqs[..n], ids).rows, q, skill, plan.iv))
  }

  ghost predicate OneTypeDay(shop: Shop, db: Db, reqs: seq<Request>, ids: nat -> Id, q: ScheduleQuery, kind: BayType) {
    |reqs| == 0 ||
    var n := |reqs| - 1;
    && OneTypeDay(shop, db, reqs[..n], ids, q, kind)
    && (Check(shop, reqs[n]).Ready? ==>
          var plan := Check(shop, reqs[n]).plan;
          plan.query.dealership == q.dealership && plan.query.day == q.day && plan.st.bayType == kind
          && BaysFree(shop, BookedInTurn(shop, db, reqs[..n], ids).rows, q, kind, plan.iv))
  }

  lemma BookedTechnicianLeast(shop: Shop, rows: seq<Row>, req: Request, id: Id, q: ScheduleQuery, t: TechnicianRow)
    requires ShopOk(shop) && Check(shop, req).Ready? && Decide(shop, rows, req, Check(shop, req).plan, id).Booked?
    requires var plan := Check(shop, req).plan;
             plan.query.dealership == q.dealership && plan.query.day == q.day
             && HoldersFree(shop, rows, q, plan.st.skill, plan.iv) && Holder(shop, q.dealership, plan.st.skill, t)
    ensures var row := Decide(shop, rows, req, Check(shop, req).plan, id).row;
            MinutesOf(rows, q, TheTechnician(row.technician)) <= MinutesOf(rows, q, TheTechnician(t.id))
  {
    var plan := Check(shop, req).plan;
    var row := Decide(shop, rows, req, plan, id).row;
    SameDaySameBookings(rows, plan.query, q, TheTechnician(t.id));
    SameDaySameBookings(rows, plan.query, q, TheTechnician(row.technician));
    ChosenTechnicianLeast(shop, rows, plan.query, plan.st, plan.iv, t);
  }

  lemma BookedBayLeast(shop: Shop, rows: seq<Row>, req: Request, id: Id, q: ScheduleQuery, b: BayRow)
    requires ShopOk(shop) && Check(shop, req).Ready? && Decide(shop, rows, req, Check(shop, req).plan, id).Booked?
    requires var plan := Check(shop, req).plan;
             plan.query.dealership == q.dealership && plan.query.day == q.day
             && BaysFree(shop, rows, q, plan.st.bayType, plan.iv) && OfType(shop, q.dealership, plan.st.bayType, b)
    ensures var row := Decide(shop, rows, req, Check(shop, req).plan, id).row;
            MinutesOf(rows, q, TheBay(row.bay)) <= MinutesOf(rows, q, TheBay(b.id))
  {
    var plan := Check(shop, req).plan;
    var row := Decide(shop, rows, req, plan, id).row;
    SameDaySameBookings(rows, plan.query, q, TheBay(b.id));
    SameDaySameBookings(rows, plan.query, q, TheBay(row.bay));
    ChosenBayLeast(shop, rows, plan.query, plan.st, plan.iv, b);
  }

  /** A booking leaves the rows as they are or adds the decided one. */
  lemma BookAdds(shop: Shop, db: Db, req: Request, id: Id)
    requires ShopOk(shop)
    ensures var rows := AfterBook(shop, db, req, id).rows;
            || rows == db.rows
            || (Check(shop, req).Ready? &&
                var outcome := Decide(shop, db.rows, req, Check(shop, req).plan, id);
                outcome.Booked? && rows == db.rows + [outcome.row]
                && outcome.row.iv.start < outcome.row.iv.end && WholeLength(outcome.row.iv))
  {
    BookAlone(shop, db, req, id);
    if Check(shop, req).Ready? {
      CheckedRequest(shop, req);
    }
  }

  /** Only rows are added. */
  lemma {:induction false} InTurnAdds(shop: Shop, db: Db, reqs: seq<Request>, ids: nat -> Id)
    requires ShopOk(shop)
    ensures db.rows <= BookedInTurn(shop, db, reqs, ids).rows
  {
    if |reqs| == 0 {
    } else {
      var n := |reqs| - 1;
      InTurnAdds(shop, db, reqs[..n], ids);
      BookAdds(shop, BookedInTurn(shop, db, reqs[..n], ids), reqs[n], ids(n));
    }
  }

  lemma LongestAfter(before: seq<Row>, from: nat, r: Row)
    requires from <= |before|
    ensures Longest((before + [r])[from..]) == Max(Longest(before[from..]), WholeMinutes(r.iv.Duration()))
  {
    assert (before + [r])[from..] == before[from..] + [r];
    assert (before[from..] + [r])[..|before| - from] == before[from..];
  }

  /** One more booking, of which every holder of the skill was free to get the work. */
  lemma TechnicianTurn(shop: Shop, db: Db, req: Request, id: Id, q: ScheduleQuery, skill: Id, from: nat)
    requires ShopOk(shop) && from <= |db.rows| && TechniciansLevel(shop, db.rows, q, skill, Longest(db.rows[from..]))
    requires Check(shop, req).Ready? ==>
               var plan := Check(shop, req).plan;
               plan.query.dealership == q.dealership && plan.query.day == q.day && plan.st.skill == skill
               && HoldersFree(shop, db.rows, q, skill, plan.iv)
    ensures var rows := AfterBook(shop, db, req, id).rows;
            from <= |rows| && TechniciansLevel(shop, rows, q, skill, Longest(rows[from..]))
  {
    BookAdds(shop, db, req, id);
    if AfterBook(shop, db, req, id).rows != db.rows {
      var row := Decide(shop, db.rows, req, Check(shop, req).plan, id).row;
      forall t | Holder(shop, q.dealership, skill, t)
        ensures MinutesOf(db.rows, q, TheTechnician(row.technician)) <= MinutesOf(db.rows, q, TheTechnician(t.id))
      {
        BookedTechnicianLeast(shop, db.rows, req, id, q, t);
      }
      TechnicianStep(shop, db.rows, row, q, skill, Longest(db.rows[from..]));
      LongestAfter(db.rows, from, row);
    }
  }

  lemma BayTurn(shop: Shop, db: Db, req: Request, id: Id, q: ScheduleQuery, kind: BayType, from: nat)
    requires ShopOk(shop) && from <= |db.rows| && BaysLevel(shop, db.rows, q, kind, Longest(db.rows[from..]))
    requires Check(shop, req).Ready? ==>
               var plan := Check(shop, req).plan;
               plan.query.dealership == q.dealership && plan.query.day == q.day && plan.st.bayType == kind
               && BaysFree(shop, db.rows, q, kind, plan.iv)
    ensures var rows := AfterBook(shop, db, req, id).rows;
            from <= |rows| && BaysLevel(shop, rows, q, kind, Longest(rows[from..]))
  {
    BookAdds(shop, db, req, id);
    if AfterBook(shop, db, req, id).rows != db.rows {
      var row := Decide(shop, db.rows, req, Check(shop, req).plan, id).row;
      forall b | OfType(shop, q.dealership, kind, b)
        ensures MinutesOf(db.rows, q, TheBay(row.bay)) <= MinutesOf(db.rows, q, TheBay(b.id))
      {
        BookedBayLeast(shop, db.rows, req, id, q, b);
      }
      BayStep(shop, db.rows, row, q, kind, Longest(db.rows[from..]));
      LongestAfter(db.rows, from, row);
    }
  }

  // ----- The same in time -----

  /** The time a resource is booked for on the day. */
  function TimeOf(rows: seq<Row>, q: ScheduleQuery, res: Resource): int {
    TotalTime(BookedFor(rows, q, res))
  }

  /** The longest of the rows. */
  function LongestTime(rows: seq<Row>): int {
    if |rows| == 0 then 0
    else Max(LongestTime(rows[..|rows| - 1]), rows[|rows| - 1].iv.end - rows[|rows| - 1].iv.start)
  }

  /** Every row of the day takes whole minutes, as do all rows that Book adds. */
  ghost predicate WholeFrom(rows: seq<Row>, from: nat) {
    forall k :: from <= k < |rows| ==> rows[k].iv.start < rows[k].iv.end && WholeLength(rows[k].iv)
  }

  lemma {:induction false} LongestInTime(rows: seq<Row>)
    requires WholeFrom(rows, 0)
    ensures Longest(rows) * MINUTE == LongestTime(rows)
  {
    if |rows| == 0 {
    } else {
      var iv := rows[|rows| - 1].iv;
      LongestInTime(rows[..|rows| - 1]);
      assert WholeMinutes(iv.Duration()) * MINUTE == iv.Duration();
    }
  }

  lemma MinutesInTime(rows: seq<Row>, q: ScheduleQuery, res: Resource, from: nat)
    requires WholeFrom(rows, from) && from <= |rows| && forall k :: 0 <= k < from ==> !InDay(rows[k], q)
    ensures MinutesOf(rows, q, res) * MINUTE == TimeOf(rows, q, res)
  {
    var booked := BookedFor(rows, q, res);
    BookedForMembers(rows, q, res);
    forall j | 0 <= j < |booked| ensures booked[j].start <= booked[j].end && booked[j].Duration() % MINUTE == 0 {
      assert booked[j] in booked;
      var r :| r in rows && InDay(r, q) && Uses(r, res) && r.iv == booked[j];
      var k :| 0 <= k < |rows| && rows[k] == r;
    }
    LoadMeasuresTime(booked);
  }

  lemma {:induction false} InTurnWhole(shop: Shop, db: Db, reqs: seq<Request>, ids: nat -> Id)
    requires ShopOk(shop)
    ensures WholeFrom(BookedInTurn(shop, db, reqs, ids).rows, |db.rows|)
  {
    if |reqs| == 0 {
    } else {
      var n := |reqs| - 1;
      InTurnWhole(shop, db, reqs[..n], ids);
      BookAdds(shop, BookedInTurn(shop, db, reqs[..n], ids), reqs[n], ids(n));
    }
  }

  lemma LevelInTime(shop: Shop, db: Db, rows: seq<Row>, q: ScheduleQuery, a: Resource, b: Resource)
    requires db.rows <= rows && WholeFrom(rows, |db.rows|) && forall k :: 0 <= k < |db.rows| ==> !InDay(db.rows[k], q)
    requires MinutesOf(rows, q, a) <= MinutesOf(rows, q, b) + Longest(rows[|db.rows|..])
    ensures TimeOf(rows, q, a) <= TimeOf(rows, q, b) + LongestTime(rows[|db.rows|..])
  {
    MinutesInTime(rows, q, a, |db.rows|);
    MinutesInTime(rows, q, b, |db.rows|);
    LongestInTime(rows[|db.rows|..]);
  }

  /** Starting from a day without bookings, on whatever tables, the gap between the most and the least loaded
      holder of the skill never exceeds the longest duration that Book has added so far. */
  lemma {:induction false} TechniciansStayLevel(shop: Shop, db: Db, reqs: seq<Request>, ids: nat -> Id,
                                                q: ScheduleQuery, skill: Id)
    requires ShopOk(shop) && (forall k :: 0 <= k < |db.rows| ==> !InDay(db.rows[k], q))
    requires OneSkillDay(shop, db, reqs, ids, q, skill)
    ensures var rows := BookedInTurn(shop, db, reqs, ids).rows;
            && db.rows <= rows && TechniciansLevel(shop, rows, q, skill, Longest(rows[|db.rows|..]))
            && forall t, u :: Holder(shop, q.dealership, skill, t) && Holder(shop, q.dealership, skill, u) ==>
                 TimeOf(rows, q, TheTechnician(t.id))
                   <= TimeOf(rows, q, TheTechnician(u.id)) + LongestTime(rows[|db.rows|..])
  {
    InTurnAdds(shop, db, reqs, ids);
    if |reqs| == 0 {
      forall t | Holder(shop, q.dealership, skill, t) ensures BookedFor(db.rows, q, TheTechnician(t.id)) == [] {
        NothingBooked(db.rows, q, TheTechnician(t.id));
      }
    } else {
      var n := |reqs| - 1;
      TechniciansStayLevel(shop, db, reqs[..n], ids, q, skill);
      TechnicianTurn(shop, BookedInTurn(shop, db, reqs[..n], ids), reqs[n], ids(n), q, skill, |db.rows|);
    }
    var rows := BookedInTurn(shop, db, reqs, ids).rows;
    InTurnWhole(shop, db, reqs, ids);
    forall t, u | Holder(shop, q.dealership, skill, t) && Holder(shop, q.dealership, skill, u)
      ensures TimeOf(rows, q, TheTechnician(t.id))
              <= TimeOf(rows, q, TheTechnician(u.id)) + LongestTime(rows[|db.rows|..])
    {
      LevelInTime(shop, db, rows, q, TheTechnician(t.id), TheTechnician(u.id));
    }
  }

  /** The same for the bays of one type. */
  lemma {:induction false} BaysStayLevel(shop: Shop, db: Db, reqs: seq<Request>, ids: nat -> Id, q: ScheduleQuery,
                                         kind: BayType)
    requires ShopOk(shop) && (forall k :: 0 <= k < |db.rows| ==> !InDay(db.rows[k], q))
    requires OneTypeDay(shop, db, reqs, ids, q, kind)
    ensures var rows := BookedInTurn(shop, db, reqs, ids).rows;
            && db.rows <= rows && BaysLevel(shop, rows, q, kind, Longest(rows[|db.rows|..]))
            && forall b, c :: OfType(shop, q.dealership, kind, b) && OfType(shop, q.dealership, kind, c) ==>
                 TimeOf(rows, q, TheBay(b.id)) <= TimeOf(rows, q, TheBay(c.id)) + LongestTime(rows[|db.rows|..])
  {
    InTurnAdds(shop, db, reqs, ids);
    if |reqs| == 0 {
      forall b | OfType(shop, q.dealership, kind, b) ensures BookedFor(db.rows, q, TheBay(b.id)) == [] {
        NothingBooked(db.rows, q, TheBay(b.id));
      }
    } else {
      var n := |reqs| - 1;
      BaysStayLevel(shop, db, reqs[..n], ids, q, kind);
      BayTurn(shop, BookedInTurn(shop, db, reqs[..n], ids), reqs[n], ids(n), q, kind, |db.rows|);
    }
    var rows := BookedInTurn(shop, db, reqs, ids).rows;
    InTurnWhole(shop, db, reqs, ids);
    forall b, c | OfType(shop, q.dealership, kind, b) && OfType(shop, q.dealership, kind, c)
      ensures TimeOf(rows, q, TheBay(b.id)) <= TimeOf(rows, q, TheBay(c.id)) + LongestTime(rows[|db.rows|..])
    {
      LevelInTime(shop, db, rows, q, TheBay(b.id), TheBay(c.id));
    }
  }
}
