/** Half-open time ranges and the minutes they add up to (internal/domain/interval.go, LoadMinutes). */
module Intervals {

  /** An instant is a number of nanoseconds on one time line. */
  type Instant = int

  const MINUTE: int := 60_000_000_000

  /** The half-open range [start, end). */
  datatype Interval = Interval(start: Instant, end: Instant) {
    function Duration(): int { end - start }

    predicate Overlaps(o: Interval) {
      start < o.end && o.start < end
    }

    predicate Contains(t: Instant) {
      start <= t < end
    }
  }

  function NewInterval(start: Instant, d: int): Interval {
    Interval(start, start + d)
  }

  predicate OverlapsAny(iv: Interval, others: seq<Interval>) {
    exists o :: o in others && iv.Overlaps(o)
  }

  /** Two ranges have an instant in common. This is also what PostgreSQL's && means on [) ranges,
      where an empty range overlaps nothing. */
  ghost predicate ShareInstant(a: Interval, b: Interval) {
    exists t: Instant :: a.Contains(t) && b.Contains(t)
  }

  /** The comparison in the code means "share an instant" exactly on non-empty ranges; on an empty
      range the two differ, which is why the schema's start < end CHECK matters. */
  lemma OverlapsIffShareInstant(a: Interval, b: Interval)
    ensures ShareInstant(a, b) <==> a.Overlaps(b) && a.start < a.end && b.start < b.end
  {
    if a.Overlaps(b) && a.start < a.end && b.start < b.end {
      var t := if a.start < b.start then b.start else a.start;
      assert a.Contains(t) && b.Contains(t);
    }
  }

  /** A zero-length range strictly inside another one: the code sees an overlap, the database none. */
  lemma EmptyRangeEscapesExclusion(t: Instant, o: Interval)
    requires o.start < t < o.end
    ensures Interval(t, t).Overlaps(o) && !ShareInstant(Interval(t, t), o)
  {
    OverlapsIffShareInstant(Interval(t, t), o);
  }

  /** int(d.Minutes()): whole minutes, truncated toward zero. */
  function WholeMinutes(d: int): int {
    if d >= 0 then d / MINUTE else -((-d) / MINUTE)
  }

  function LoadOf(booked: seq<Interval>): int {
    if |booked| == 0 then 0
    else LoadOf(booked[..|booked| - 1]) + WholeMinutes(booked[|booked| - 1].Duration())
  }

  method LoadMinutes(booked: seq<Interval>) returns (total: int)
    ensures total == LoadOf(booked)
  {
    total := 0;
    for k := 0 to |booked|
      invariant total == LoadOf(booked[..k])
    {
      total := total + WholeMinutes(booked[k].Duration());
      assert booked[..k + 1][..k] == booked[..k];
    }
    assert booked[..|booked|] == booked;
  }

  lemma {:induction false} LoadOfConcat(a: seq<Interval>, b: seq<Interval>)
    ensures LoadOf(a + b) == LoadOf(a) + LoadOf(b)
  {
    if |b| == 0 {
      assert a + b == a;
    } else {
      var n := |b| - 1;
      LoadOfConcat(a, b[..n]);
      assert (a + b)[..|a + b| - 1] == a + b[..n];
    }
  }

  lemma LoadAppend(s: seq<Interval>, iv: Interval)
    ensures LoadOf(s + [iv]) == LoadOf(s) + WholeMinutes(iv.Duration()) && LoadOf(s + []) == LoadOf(s)
  {
    assert (s + [iv])[..|s|] == s && s + [] == s;
  }

  lemma MultisetWithout<T>(s: seq<T>, k: nat)
    requires k < |s|
    ensures multiset(s[..k] + s[k + 1..]) == multiset(s) - multiset{s[k]}
  {
    assert s == s[..k] + [s[k]] + s[k + 1..];
  }

  lemma LoadWithout(s: seq<Interval>, k: nat)
    requires k < |s|
    ensures LoadOf(s) == LoadOf(s[..k] + s[k + 1..]) + WholeMinutes(s[k].Duration())
  {
    var before, after := s[..k], s[k + 1..];
    var upTo := s[..k + 1];
    assert s == upTo + after && upTo[..k] == before && upTo[k] == s[k];
    LoadOfConcat(before, after);
    LoadOfConcat(upTo, after);
  }

  /** The load does not depend on the order in which the rows were read. */
  lemma {:induction false} LoadIgnoresOrder(a: seq<Interval>, b: seq<Interval>)
    requires multiset(a) == multiset(b)
    ensures LoadOf(a) == LoadOf(b)
  {
    if |a| == 0 {
      assert |multiset(b)| == 0;
    } else {
      var n := |a| - 1;
      LoadWithout(a, n);
      MultisetWithout(a, n);
      assert a[..n] + a[n + 1..] == a[..n];
      assert a[n] in multiset(b);
      var k :| 0 <= k < |b| && b[k] == a[n];
      LoadWithout(b, k);
      MultisetWithout(b, k);
      LoadIgnoresOrder(a[..n], b[..k] + b[k + 1..]);
    }
  }

  /** Pairwise disjoint, non-empty and inside [lo, hi]: the shape of one resource's day. */
  ghost predicate Packed(s: seq<Interval>, lo: Instant, hi: Instant) {
    && (forall k :: 0 <= k < |s| ==> lo <= s[k].start < s[k].end <= hi)
    && (forall j, k :: 0 <= j < k < |s| ==> !s[j].Overlaps(s[k]))
  }

  function TotalTime(s: seq<Interval>): int {
    if |s| == 0 then 0 else s[0].Duration() + TotalTime(s[1..])
  }

  /** Splits s into what ends before p starts and what starts after p ends, keeping both packed. */
  lemma {:induction false} SplitAround(s: seq<Interval>, p: Interval, lo: Instant, hi: Instant)
    returns (left: seq<Interval>, right: seq<Interval>)
    requires Packed(s, lo, hi) && lo <= p.start < p.end <= hi
    requires forall x :: x in s ==> !p.Overlaps(x)
    ensures Packed(left, lo, p.start) && Packed(right, p.end, hi)
    ensures |left| + |right| == |s| && TotalTime(left) + TotalTime(right) == TotalTime(s)
    ensures forall x :: x in left || x in right ==> x in s
  {
    if |s| == 0 {
      return [], [];
    }
    var l, r := SplitAround(s[1..], p, lo, hi);
    forall x | x in l || x in r ensures !s[0].Overlaps(x) {
      var k :| 0 <= k < |s[1..]| && s[1..][k] == x;
      assert !s[0].Overlaps(s[k + 1]);
    }
    assert !p.Overlaps(s[0]);
    if s[0].end <= p.start {
      left, right := [s[0]] + l, r;
    } else {
      left, right := l, [s[0]] + r;
    }
  }

  /** Disjoint ranges inside a window cannot add up to more than the window. */
  lemma {:induction false} PackedFits(s: seq<Interval>, lo: Instant, hi: Instant)
    requires lo <= hi && Packed(s, lo, hi)
    ensures TotalTime(s) <= hi - lo
    decreases |s|
  {
    if |s| == 0 {
    } else {
      forall x | x in s[1..] ensures !s[0].Overlaps(x) {
        var k :| 0 <= k < |s[1..]| && s[1..][k] == x;
        assert !s[0].Overlaps(s[k + 1]);
      }
      var left, right := SplitAround(s[1..], s[0], lo, hi);
      PackedFits(left, lo, s[0].start);
      PackedFits(right, s[0].end, hi);
    }
  }

  /** Whole minutes per interval never add up to more than the whole minutes of the total time. */
  lemma {:induction false} LoadWithinTime(s: seq<Interval>)
    requires forall k :: 0 <= k < |s| ==> s[k].start <= s[k].end
    ensures 0 <= LoadOf(s) && LoadOf(s) * MINUTE <= TotalTime(s)
  {
    if |s| == 0 {
    } else {
      LoadWithinTime(s[1..]);
      assert s == [s[0]] + s[1..];
      LoadOfConcat([s[0]], s[1..]);
      LoadOfConcat([], [s[0]]);
    }
  }

  /** int(d.Minutes()) of a time in nanoseconds: the whole minutes in it, and as many of the negative. */
  lemma WholeMinutesCount(d: int)
    ensures d >= 0 ==> 60_000_000_000 * WholeMinutes(d) <= d < 60_000_000_000 * (WholeMinutes(d) + 1)
    ensures WholeMinutes(-d) == -WholeMinutes(d)
  {
  }

  /** The load is the total time in minutes, up to less than a minute for each interval, and exactly if
      every interval takes whole minutes. */
  lemma {:induction false} LoadMeasuresTime(s: seq<Interval>)
    requires forall k :: 0 <= k < |s| ==> s[k].start <= s[k].end
    ensures LoadOf(s) * MINUTE <= TotalTime(s)
    ensures |s| > 0 ==> TotalTime(s) - |s| * MINUTE < LoadOf(s) * MINUTE
    ensures (forall k :: 0 <= k < |s| ==> s[k].Duration() % MINUTE == 0) ==> LoadOf(s) * MINUTE == TotalTime(s)
  {
    if |s| == 0 {
    } else {
      LoadMeasuresTime(s[1..]);
      assert s == [s[0]] + s[1..];
      LoadOfConcat([s[0]], s[1..]);
      LoadOfConcat([], [s[0]]);
    }
  }

  /** A packed day's load in minutes is at most the window's length in minutes. */
  lemma PackedLoadBound(s: seq<Interval>, lo: Instant, hi: Instant)
    requires lo <= hi && Packed(s, lo, hi)
    ensures 0 <= LoadOf(s) <= (hi - lo) / MINUTE
  {
    PackedFits(s, lo, hi);
    LoadWithinTime(s);
    assert LoadOf(s) * MINUTE <= hi - lo;
  }
}
