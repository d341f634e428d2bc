/** Who controls a variant when several campaigns cover it. */
module Ranking {
  import opened Wrappers

  /** What the winner ordering looks at: priority first, then start, then id. */
  datatype Rank = Rank(priority: int, startAt: int, id: string)

  /** JavaScript's `<` on strings: by the first differing UTF-16 code unit, a prefix being smaller. */
  predicate StringLess(a: string, b: string) {
    |b| > 0 && (|a| == 0 || a[0] < b[0] || (a[0] == b[0] && StringLess(a[1..], b[1..])))
  }

  /** `a` and `b` agree up to some place, where `a` ends first or has the smaller character. */
  ghost predicate Before(a: string, b: string) {
    exists k :: 0 <= k <= |a| && k < |b| && a[..k] == b[..k] && (k == |a| || a[k] < b[k])
  }

  /** What `<` on ids means. */
  lemma {:induction false} StringLessIsBefore(a: string, b: string)
    ensures StringLess(a, b) <==> Before(a, b)
  {
    if b == [] {
    } else if a == [] {
      assert a[..0] == b[..0];
    } else {
      StringLessIsBefore(a[1..], b[1..]);
      if a[0] < b[0] {
        assert a[..0] == b[..0];
      }
      if a[0] == b[0] && Before(a[1..], b[1..]) {
        var k :| 0 <= k <= |a[1..]| && k < |b[1..]| && a[1..][..k] == b[1..][..k] && (k == |a[1..]| || a[1..][k] < b[1..][k]);
        assert a[..k + 1] == [a[0]] + a[1..][..k] && b[..k + 1] == [b[0]] + b[1..][..k];
      }
      if Before(a, b) {
        var k :| 0 <= k <= |a| && k < |b| && a[..k] == b[..k] && (k == |a| || a[k] < b[k]);
        if k > 0 {
          assert a[0] == a[..k][0] == b[..k][0] == b[0];
          assert a[1..][..k - 1] == a[..k][1..] && b[1..][..k - 1] == b[..k][1..];
        }
      }
    }
  }

  /** Higher priority; at equal priority the later start; at equal start the larger id, or the same campaign. */
  ghost predicate Yields(loser: Rank, winner: Rank) {
    || loser.priority < winner.priority
    || (loser.priority == winner.priority && loser.startAt < winner.startAt)
    || (loser.priority == winner.priority && loser.startAt == winner.startAt && Before(loser.id, winner.id))
    || loser == winner
  }

  /** Positive when `a` outranks `b`. */
  function Compare(a: Rank, b: Rank): int {
    if a.priority != b.priority then a.priority - b.priority
    else if a.startAt != b.startAt then a.startAt - b.startAt
    else if StringLess(a.id, b.id) then -1
    else if StringLess(b.id, a.id) then 1
    else 0
  }

  lemma {:induction false} StringLessTotal(a: string, b: string)
    ensures StringLess(a, b) || StringLess(b, a) || a == b
    ensures !(StringLess(a, b) && StringLess(b, a))
    ensures !StringLess(a, a)
  {
    if a != [] {
      StringLessTotal(a[1..], if b == [] then [] else b[1..]);
      if b != [] && a[0] == b[0] && a[1..] == b[1..] {
        assert a == [a[0]] + a[1..] && b == [b[0]] + b[1..];
      }
    }
  }

  lemma {:induction false} StringLessTransitive(a: string, b: string, c: string)
    requires StringLess(a, b) && StringLess(b, c)
    ensures StringLess(a, c)
  {
    if a != [] && a[0] == b[0] && b[0] == c[0] {
      StringLessTransitive(a[1..], b[1..], c[1..]);
    }
  }

  /** The comparison is a total order: two campaigns tie only when they are the same in all three keys. */
  lemma CompareIsTotalOrder(a: Rank, b: Rank, c: Rank)
    ensures Compare(a, b) == 0 <==> a == b
    ensures Compare(a, b) > 0 <==> Compare(b, a) < 0
    ensures Compare(a, b) > 0 && Compare(b, c) > 0 ==> Compare(a, c) > 0
  {
    StringLessTotal(a.id, b.id);
    StringLessTotal(b.id, c.id);
    StringLessTotal(a.id, c.id);
    if StringLess(b.id, a.id) && StringLess(c.id, b.id) {
      StringLessTransitive(c.id, b.id, a.id);
    }
  }

  /** What the comparison says, key by key. */
  lemma ComparesKeyByKey(a: Rank, b: Rank)
    ensures Compare(a, b) >= 0 <==> Yields(b, a)
  {
    StringLessTotal(a.id, b.id);
    StringLessIsBefore(a.id, b.id);
    StringLessIsBefore(b.id, a.id);
  }

  /** `r` is at the top of `ranks`. */
  predicate Tops(r: Rank, ranks: seq<Rank>) {
    r in ranks && forall other :: other in ranks ==> Compare(r, other) >= 0
  }

  /** The reduce over the campaigns on a variant: a later one wins only by outranking the best so far. */
  function Best(ranks: seq<Rank>): (best: nat)
    requires ranks != []
    ensures best < |ranks|
  {
    if |ranks| == 1 then 0
    else
      var last := |ranks| - 1;
      var best := Best(ranks[..last]);
      if Compare(ranks[last], ranks[best]) > 0 then last else best
  }

  lemma {:induction false} BestTops(ranks: seq<Rank>)
    requires ranks != []
    ensures Tops(ranks[Best(ranks)], ranks)
  {
    var last := |ranks| - 1;
    CompareIsTotalOrder(ranks[last], ranks[last], ranks[last]);
    if last > 0 {
      BestTops(ranks[..last]);
      var best := Best(ranks[..last]);
      forall other | other in ranks
        ensures Compare(ranks[Best(ranks)], other) >= 0
      {
        assert other in ranks[..last] || other == ranks[last];
        CompareIsTotalOrder(ranks[last], ranks[best], other);
        CompareIsTotalOrder(ranks[best], other, ranks[last]);
      }
    }
  }

  method SelectWinner(ranks: seq<Rank>) returns (winner: Option<nat>)
    ensures winner == if ranks == [] then None else Some(Best(ranks))
    ensures winner.Some? ==> Tops(ranks[winner.value], ranks)
    ensures winner.Some? ==> forall r :: r in ranks ==> Yields(r, ranks[winner.value])
  {
    if ranks == [] {
      return None;
    }
    var best := 0;
    for i := 1 to |ranks|
      invariant best < i && best == Best(ranks[..i])
    {
      assert ranks[..i + 1][..i] == ranks[..i];
      if Compare(ranks[i], ranks[best]) > 0 {
        best := i;
      }
    }
    assert ranks[..|ranks|] == ranks;
    BestTops(ranks);
    forall r | r in ranks
      ensures Yields(r, ranks[best])
    {
      ComparesKeyByKey(ranks[best], r);
    }
    winner := Some(best);
  }

  /** Whichever order the campaigns are listed in, the same one wins. */
  lemma WinnerIsUnique(a: Rank, b: Rank, ranks: seq<Rank>, others: seq<Rank>)
    requires Tops(a, ranks) && Tops(b, others)
    requires forall r :: r in ranks <==> r in others
    ensures a == b
  {
    CompareIsTotalOrder(a, b, a);
  }
}
