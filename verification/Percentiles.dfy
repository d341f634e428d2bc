/** The latency summary: the middle, the slow tail and the slowest of a sample. */
module Percentiles {
  datatype Latencies = Latencies(count: nat, p50: int, p95: int, max: int)

  predicate Ascending(s: seq<int>) {
    forall i, j :: 0 <= i < j < |s| ==> s[i] <= s[j]
  }

  /** `x` in its place in an ascending list. */
  function Insert(x: int, s: seq<int>): (r: seq<int>)
    requires Ascending(s)
    ensures multiset(r) == multiset(s) + multiset{x} && Ascending(r)
  {
    if s == [] then [x]
    else if x <= s[0] then [x] + s
    else
      var rest := Insert(x, s[1..]);
      assert s == [s[0]] + s[1..];
      LeastFirst(s[0], rest, s[1..], x);
      [s[0]] + rest
  }

  lemma LeastFirst(least: int, rest: seq<int>, tail: seq<int>, x: int)
    requires multiset(rest) == multiset(tail) + multiset{x} && least <= x && forall y :: y in tail ==> least <= y
    ensures forall k :: 0 <= k < |rest| ==> least <= rest[k]
  {
    forall k | 0 <= k < |rest|
      ensures least <= rest[k]
    {
      assert rest[k] in multiset(rest);
      assert rest[k] in tail || rest[k] == x;
    }
  }

  function Sort(s: seq<int>): (r: seq<int>)
    ensures multiset(r) == multiset(s) && Ascending(r)
  {
    if s == [] then []
    else
      assert s == [s[0]] + s[1..];
      Insert(s[0], Sort(s[1..]))
  }

  /** The place a fraction falls at, never past the end. */
  function Place(num: nat, den: nat, n: nat): (k: nat)
    requires n > 0 && den > 0
    ensures k < n
  {
    if num * n / den < n then num * n / den else n - 1
  }

  /** The figures of an ascending list. */
  function Figures(sorted: seq<int>): Latencies {
    var n := |sorted|;
    if n == 0 then Latencies(0, 0, 0, 0)
    else Latencies(n, sorted[Place(1, 2, n)], sorted[Place(95, 100, n)], sorted[n - 1])
  }

  function Summarise(samples: seq<int>): Latencies {
    Figures(Sort(samples))
  }

  lemma SortKeepsLength(s: seq<int>)
    ensures |Sort(s)| == |s|
  {
    assert |multiset(Sort(s))| == |multiset(s)|;
  }

  // --------------------------------------------------------------- promises

  lemma FirstIsLeast(a: seq<int>, b: seq<int>)
    requires Ascending(a) && a != [] && b != [] && b[0] in multiset(a)
    ensures a[0] <= b[0]
  {
    var j :| 0 <= j < |a| && a[j] == b[0];
  }

  lemma TailsAlike(a: seq<int>, b: seq<int>)
    requires a != [] && b != [] && a[0] == b[0] && multiset(a) == multiset(b)
    ensures multiset(a[1..]) == multiset(b[1..])
  {
    assert a == [a[0]] + a[1..] && b == [b[0]] + b[1..];
    assert multiset(a[1..]) == multiset(a) - multiset{a[0]};
    assert multiset(b[1..]) == multiset(b) - multiset{b[0]};
  }

  /** Two ascending lists of the same samples are the same list. */
  lemma {:induction false} AscendingIsUnique(a: seq<int>, b: seq<int>)
    requires Ascending(a) && Ascending(b) && multiset(a) == multiset(b)
    ensures a == b
  {
    assert |multiset(a)| == |a| && |multiset(b)| == |b|;
    if a != [] {
      assert a[0] in multiset(b) && b[0] in multiset(a);
      FirstIsLeast(a, b);
      FirstIsLeast(b, a);
      TailsAlike(a, b);
      AscendingIsUnique(a[1..], b[1..]);
      assert a == [a[0]] + a[1..] && b == [b[0]] + b[1..];
    }
  }

  /** The order samples came in changes nothing. */
  lemma OrderDoesNotMatter(a: seq<int>, b: seq<int>)
    requires multiset(a) == multiset(b)
    ensures Summarise(a) == Summarise(b)
  {
    AscendingIsUnique(Sort(a), Sort(b));
  }

  /** Every figure is one of the samples, and they come in order. */
  lemma FiguresAreSamples(samples: seq<int>)
    requires samples != []
    ensures var l := Summarise(samples);
            && l.count == |samples|
            && l.p50 in samples && l.p95 in samples && l.max in samples
            && l.p50 <= l.p95 <= l.max
            && forall x :: x in samples ==> x <= l.max
  {
    var sorted := Sort(samples);
    SortKeepsLength(samples);
    var n := |sorted|;
    SameMembers(samples, sorted);
    FiguresAreInOrder(sorted, n);
  }

  lemma SameMembers(a: seq<int>, b: seq<int>)
    requires multiset(a) == multiset(b)
    ensures forall x :: x in a <==> x in b
  {
    forall x
      ensures x in a <==> x in b
    {
      assert x in a <==> x in multiset(a);
      assert x in b <==> x in multiset(b);
    }
  }

  lemma FiguresAreInOrder(sorted: seq<int>, n: nat)
    requires Ascending(sorted) && n == |sorted| > 0
    ensures sorted[Place(1, 2, n)] <= sorted[Place(95, 100, n)] <= sorted[n - 1]
    ensures forall x :: x in sorted ==> x <= sorted[n - 1]
  {
    assert Place(1, 2, n) <= Place(95, 100, n);
  }

  /** How many of a list are at most `bound`. */
  function AtMost(s: seq<int>, bound: int): nat {
    if s == [] then 0 else AtMost(s[..|s| - 1], bound) + if s[|s| - 1] <= bound then 1 else 0
  }

  lemma {:induction false} AtMostOfAscending(s: seq<int>, k: nat)
    requires Ascending(s) && k < |s|
    ensures AtMost(s, s[k]) >= k + 1
  {
    var last := |s| - 1;
    if k < last {
      AtMostOfAscending(s[..last], k);
    } else if last > 0 {
      AtMostOfAscending(s[..last], last - 1);
      MoreAtMost(s[..last], s[last - 1], s[last]);
    }
  }

  lemma {:induction false} MoreAtMost(s: seq<int>, low: int, high: int)
    requires low <= high
    ensures AtMost(s, low) <= AtMost(s, high)
  {
    if s != [] {
      MoreAtMost(s[..|s| - 1], low, high);
    }
  }

  /** Counting does not mind the order either. */
  lemma {:induction false} AtMostOfSame(a: seq<int>, b: seq<int>, bound: int)
    requires multiset(a) == multiset(b)
    ensures AtMost(a, bound) == AtMost(b, bound)
  {
    if a == [] {
      assert |multiset(b)| == 0;
    } else {
      var x := a[|a| - 1];
      assert a == a[..|a| - 1] + [x];
      assert x in multiset(b);
      var k :| 0 <= k < |b| && b[k] == x;
      var c := b[..k] + b[k + 1..];
      assert b == b[..k] + [x] + b[k + 1..];
      assert multiset(a[..|a| - 1]) == multiset(a) - multiset{x} == multiset(b) - multiset{x} == multiset(c);
      AtMostOfSame(a[..|a| - 1], c, bound);
      AtMostMiddle(b[..k], x, b[k + 1..], bound);
    }
  }

  lemma {:induction false} AtMostMiddle(p: seq<int>, x: int, q: seq<int>, bound: int)
    ensures AtMost(p + [x] + q, bound) == AtMost(p + q, bound) + if x <= bound then 1 else 0
  {
    if q == [] {
      assert p + [x] + q == p + [x] && p + q == p;
      assert (p + [x])[..|p|] == p;
    } else {
      var last := |q| - 1;
      AtMostMiddle(p, x, q[..last], bound);
      assert (p + [x] + q)[..|p| + 1 + last] == p + [x] + q[..last];
      assert (p + q)[..|p| + last] == p + q[..last];
    }
  }

  lemma {:induction false} FewBelow(s: seq<int>, k: nat)
    requires Ascending(s) && k < |s|
    ensures AtMost(s, s[k] - 1) <= k
  {
    var last := |s| - 1;
    if k < last {
      FewBelow(s[..last], k);
    } else {
      AtMostAll(s[..last], s[k] - 1);
    }
  }

  lemma {:induction false} AtMostAll(s: seq<int>, bound: int)
    ensures AtMost(s, bound) <= |s|
  {
    if s != [] {
      AtMostAll(s[..|s| - 1], bound);
    }
  }

  /** The sample at a place has that many before it at most, and one more up to it at least. */
  lemma AroundPlace(samples: seq<int>, sorted: seq<int>, k: nat)
    requires multiset(samples) == multiset(sorted) && Ascending(sorted) && k < |sorted|
    ensures AtMost(samples, sorted[k]) >= k + 1 && AtMost(samples, sorted[k] - 1) <= k
  {
    AtMostOfAscending(sorted, k);
    FewBelow(sorted, k);
    AtMostOfSame(samples, sorted, sorted[k]);
    AtMostOfSame(samples, sorted, sorted[k] - 1);
  }

  lemma Places(n: nat)
    requires n > 0
    ensures Place(95, 100, n) <= 95 * n / 100 && Place(95, 100, n) + 1 == if 95 * n / 100 + 1 < n then 95 * n / 100 + 1 else n
    ensures Place(1, 2, n) <= n / 2 && Place(1, 2, n) + 1 == if n / 2 + 1 < n then n / 2 + 1 else n
  {
  }

  /** At least that many of the samples are no slower than `x`, or all of them, and no more than that many less one are faster. */
  predicate Divides(samples: seq<int>, x: int, most: nat) {
    AtMost(samples, x) >= (if most < |samples| then most else |samples|) && AtMost(samples, x - 1) < most
  }

  lemma FiguresDivide(samples: seq<int>, sorted: seq<int>)
    requires multiset(samples) == multiset(sorted) && Ascending(sorted) && |sorted| == |samples| > 0
    ensures var n, l := |samples|, Figures(sorted);
            Divides(samples, l.p95, 95 * n / 100 + 1) && Divides(samples, l.p50, n / 2 + 1)
  {
    Places(|samples|);
    AroundPlace(samples, sorted, Place(1, 2, |samples|));
    AroundPlace(samples, sorted, Place(95, 100, |samples|));
  }

  /**
   * At least floor(0.95 n) + 1 of the samples, or all of them, are no slower than the p95, and no more
   * than floor(0.95 n) are faster; half likewise.
   */
  lemma MostAreWithinP95(samples: seq<int>)
    requires samples != []
    ensures var n, l := |samples|, Summarise(samples);
            Divides(samples, l.p95, 95 * n / 100 + 1) && Divides(samples, l.p50, n / 2 + 1)
  {
    SortKeepsLength(samples);
    FiguresDivide(samples, Sort(samples));
  }
}
