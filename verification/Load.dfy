/** A resource's day is packed inside the opening window, so its load is bounded by the window. */
module Load {
  import opened Intervals
  import opened Policy
  import opened Hours
  import opened Schema
  import opened Booking
  import opened Protocol
  import opened Tables
  import opened Runs
  import opened Races
  import opened Serial

  function DayQuery(shop: Shop, d: Id, day: int): ScheduleQuery
    requires d in shop.dealerships
  {
    ScheduleQuery(d, Bounds(shop.dealerships[d], day), None)
  }

  lemma EarlierIntervalsApart(shop: Shop, rows: seq<Row>, r: Row, q: ScheduleQuery, res: Resource, iv: Interval)
    requires iv in BookedFor(rows, q, res) && InDay(r, q) && Uses(r, res)
    requires forall k :: 0 <= k < |rows| ==> Apart(rows[k], r)
    ensures !iv.Overlaps(r.iv)
  {
    BookedForMembers(rows, q, res);
    var o :| o in rows && InDay(o, q) && Uses(o, res) && o.iv == iv;
    assert !Clash(o, r);
  }

  lemma PackedGrows(s: seq<Interval>, iv: Interval, lo: Instant, hi: Instant)
    requires Packed(s, lo, hi) && lo <= iv.start < iv.end <= hi && forall k :: 0 <= k < |s| ==> !s[k].Overlaps(iv)
    ensures Packed(s + [iv], lo, hi)
  {
  }

  /** A row of the day lies in the day's window, apart from the rows before it. */
  lemma RowFitsDay(shop: Shop, rows: seq<Row>, r: Row, d: Id, day: int, res: Resource)
    requires ShopOk(shop) && ClocksFit(shop) && RowOk(shop, r) && InHours(shop, r) && d in shop.dealerships
    requires InDay(r, DayQuery(shop, d, day)) && Uses(r, res) && forall k :: 0 <= k < |rows| ==> Apart(rows[k], r)
    ensures var w := WindowOf(shop.dealerships[d], day);
            w.Some? && w.value.open <= r.iv.start < r.iv.end <= w.value.close
    ensures var before := BookedFor(rows, DayQuery(shop, d, day), res);
            forall k :: 0 <= k < |before| ==> !before[k].Overlaps(r.iv)
  {
    StartsInItsDay(shop, r, day);
    var before := BookedFor(rows, DayQuery(shop, d, day), res);
    forall k | 0 <= k < |before| ensures !before[k].Overlaps(r.iv) {
      EarlierIntervalsApart(shop, rows, r, DayQuery(shop, d, day), res, before[k]);
    }
  }

  /** Pairwise disjoint inside the day's window; nothing at all on a closed day. */
  ghost predicate DayPacked(shop: Shop, d: Id, day: int, booked: seq<Interval>)
    requires d in shop.dealerships
  {
    var w := WindowOf(shop.dealerships[d], day);
    if w.Some? then Packed(booked, w.value.open, w.value.close) else booked == []
  }

  lemma PackedStep(shop: Shop, rows: seq<Row>, r: Row, d: Id, day: int, res: Resource)
    requires ShopOk(shop) && ClocksFit(shop) && RowOk(shop, r) && InHours(shop, r) && d in shop.dealerships
    requires forall k :: 0 <= k < |rows| ==> Apart(rows[k], r)
    requires DayPacked(shop, d, day, BookedFor(rows, DayQuery(shop, d, day), res))
    ensures DayPacked(shop, d, day, BookedFor(rows + [r], DayQuery(shop, d, day), res))
  {
    var q := DayQuery(shop, d, day);
    var before := BookedFor(rows, q, res);
    BookedForAppend(rows, r, q, res);
    if InDay(r, q) && Uses(r, res) {
      RowFitsDay(shop, rows, r, d, day, res);
      var w := WindowOf(shop.dealerships[d], day).value;
      PackedGrows(before, r.iv, w.open, w.close);
    } else {
      assert before + [] == before;
    }
  }

  lemma WithoutLastRow(shop: Shop, rows: seq<Row>) returns (before: seq<Row>, r: Row)
    requires RowsOk(shop, rows) && RowsInHours(shop, rows) && |rows| > 0
    ensures before + [r] == rows && RowsOk(shop, before) && RowsInHours(shop, before)
    ensures RowOk(shop, r) && InHours(shop, r) && forall k :: 0 <= k < |before| ==> Apart(before[k], r)
  {
    before, r := rows[..|rows| - 1], rows[|rows| - 1];
  }

  lemma {:induction false} RowsPacked(shop: Shop, rows: seq<Row>, d: Id, day: int, res: Resource)
    requires ShopOk(shop) && ClocksFit(shop) && RowsOk(shop, rows) && RowsInHours(shop, rows) && d in shop.dealerships
    ensures DayPacked(shop, d, day, BookedFor(rows, DayQuery(shop, d, day), res))
    decreases |rows|
  {
    if |rows| == 0 {
    } else {
      var before, r := WithoutLastRow(shop, rows);
      RowsPacked(shop, before, d, day, res);
      PackedStep(shop, before, r, d, day, res);
    }
  }

  /** In every state that bookings and cancellations reach, the confirmed minutes of any technician, bay or vehicle on
      any day are at most the length of that day's opening window, and zero on a closed day. */
  lemma LoadNeverExceedsWindow(shop: Shop, db: Db, reqs: seq<Request>, evs: seq<Event>, d: Id, day: int, res: Resource)
    requires ShopOk(shop) && ClocksFit(shop) && DbOk(shop, db) && RowsInHours(shop, db.rows) && d in shop.dealerships
    requires NoForeigners(evs) && RunTo(shop, InitialState(db, reqs), evs).Some?
    ensures var w := WindowOf(shop.dealerships[d], day);
            var booked := BookedFor(RunTo(shop, InitialState(db, reqs), evs).value.db.rows, DayQuery(shop, d, day),
                                    res);
            && (forall j, k :: 0 <= j < k < |booked| ==> !booked[j].Overlaps(booked[k]))
            && (if w.Some? && w.value.open <= w.value.close
                then 0 <= LoadOf(booked) <= (w.value.close - w.value.open) / MINUTE
                else LoadOf(booked) == 0)
  {
    RunKeepsInv(shop, db, reqs, evs);
    HoursAlwaysKept(shop, db, reqs, evs);
    var rows := RunTo(shop, InitialState(db, reqs), evs).value.db.rows;
    RowsPacked(shop, rows, d, day, res);
    var w := WindowOf(shop.dealerships[d], day);
    if w.Some? && w.value.open <= w.value.close {
      PackedLoadBound(BookedFor(rows, DayQuery(shop, d, day), res), w.value.open, w.value.close);
    }
  }
}
