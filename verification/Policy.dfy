/** The least-loaded policy: copy the candidates, sort the copy, take the first (internal/domain/policy.go). */
module Policy {

  type Id = nat

  datatype Option<+T> = None | Some(value: T)

  datatype Candidate = Candidate(id: Id, load: int)

  /** The comparison handed to the sort: fewer minutes first, then the smaller identifier. */
  predicate Before(a: Candidate, b: Candidate) {
    if a.load != b.load then a.load < b.load else a.id < b.id
  }

  ghost predicate Ascending(s: seq<Candidate>) {
    forall j, k :: 0 <= j < k < |s| ==> !Before(s[k], s[j])
  }

  ghost predicate IsLeast(c: Candidate, cs: seq<Candidate>) {
    c in cs && forall x :: x in cs ==> !Before(x, c)
  }

  function LeastLoaded(cs: seq<Candidate>): Candidate
    requires |cs| > 0
  {
    var last := cs[|cs| - 1];
    if |cs| == 1 then last
    else
      var c := LeastLoaded(cs[..|cs| - 1]);
      if Before(last, c) then last else c
  }

  lemma {:induction false} LeastLoadedIsLeast(cs: seq<Candidate>)
    requires |cs| > 0
    ensures IsLeast(LeastLoaded(cs), cs)
  {
    if |cs| == 1 {
    } else {
      LeastLoadedIsLeast(cs[..|cs| - 1]);
      assert forall x :: x in cs ==> x in cs[..|cs| - 1] || x == cs[|cs| - 1];
    }
  }

  /** Load and identifier decide the choice completely: there is only one least candidate, so any
      two lists with the same members give the same choice. */
  lemma LeastIsUnique(c: Candidate, cs: seq<Candidate>, ds: seq<Candidate>)
    requires |ds| > 0 && IsLeast(c, cs) && (forall x :: x in cs <==> x in ds)
    ensures LeastLoaded(ds) == c
  {
    var d := LeastLoaded(ds);
    LeastLoadedIsLeast(ds);
    assert !Before(c, d) && !Before(d, c);
  }

  /** The comparison tells any two different candidates apart, so a list has only one ascending
      rearrangement, whichever sort makes it. */
  lemma {:induction false} AscendingIsUnique(s: seq<Candidate>, t: seq<Candidate>)
    requires Ascending(s) && Ascending(t) && multiset(s) == multiset(t)
    ensures s == t
  {
    if |s| == 0 {
      assert |multiset(t)| == 0;
    } else {
      assert |multiset(t)| == |s|;
      assert s[0] in multiset(t) && t[0] in multiset(s);
      assert s[0] == t[0];
      assert s == [s[0]] + s[1..] && t == [t[0]] + t[1..];
      assert multiset(s[1..]) == multiset(s) - multiset{s[0]} == multiset(t[1..]);
      AscendingIsUnique(s[1..], t[1..]);
    }
  }

  /** Stable insertion sort, in place. */
  method SortStable(a: array<Candidate>)
    modifies a
    ensures Ascending(a[..])
    ensures multiset(a[..]) == multiset(old(a[..]))
  {
    var i := 0;
    while i < a.Length
      invariant 0 <= i <= a.Length
      invariant Ascending(a[..i])
      invariant multiset(a[..]) == multiset(old(a[..]))
    {
      var j := i;
      while j > 0 && Before(a[j], a[j - 1])
        invariant 0 <= j <= i < a.Length
        invariant forall p, q :: 0 <= p < q <= i && q != j ==> !Before(a[q], a[p])
        invariant multiset(a[..]) == multiset(old(a[..]))
      {
        a[j - 1], a[j] := a[j], a[j - 1];
        j := j - 1;
      }
      i := i + 1;
    }
    assert a[..i] == a[..];
  }

  method Choose(candidates: seq<Candidate>) returns (r: Option<Candidate>)
    ensures r == if |candidates| == 0 then None else Some(LeastLoaded(candidates))
  {
    if |candidates| == 0 {
      return None;
    }
    var sorted := new Candidate[|candidates|](i requires 0 <= i < |candidates| => candidates[i]);
    assert sorted[..] == candidates;
    SortStable(sorted);
    assert forall x :: x in sorted[..] <==> x in multiset(sorted[..]);
    assert forall x :: x in candidates <==> x in multiset(candidates);
    assert IsLeast(sorted[..][0], sorted[..]);
    LeastIsUnique(sorted[0], sorted[..], candidates);
    r := Some(sorted[0]);
  }
}
