/**
 * The end-to-end scripts' own story: one campaign, applied, ended, cut part-way by a client that
 * stops accepting writes, and resumed.
 */
module ScriptRuns {
  import opened Wrappers
  import opened Lifecycle
  import opened Ledger

  /** Refuses every price write after the first `limit`. */
  class Client {
    const limit: nat
    var writes: nat

    constructor (limit: nat)
      ensures this.limit == limit && writes == 0
    {
      this.limit := limit;
      writes := 0;
    }

    method Request() returns (ok: bool)
      modifies this
      ensures ok == (old(writes) < limit)
      ensures writes == old(writes) + if ok then 1 else 0
    {
      ok := writes < limit;
      if ok {
        writes := writes + 1;
      }
    }
  }

  predicate Distinct(s: seq<Variant>) {
    forall i, j :: 0 <= i < j < |s| ==> s[i] != s[j]
  }

  /** The members of `chosen`, in order. */
  function Keep(order: seq<Variant>, chosen: set<Variant>): (r: seq<Variant>)
    ensures forall v :: v in r <==> v in order && v in chosen
    ensures Distinct(order) ==> Distinct(r)
  {
    if order == [] then []
    else
      assert order == [order[0]] + order[1..];
      (if order[0] in chosen then [order[0]] else []) + Keep(order[1..], chosen)
  }

  function Members(s: seq<Variant>): set<Variant> {
    set v | v in s
  }

  lemma {:induction false} MembersCount(s: seq<Variant>)
    requires Distinct(s)
    ensures |Members(s)| == |s|
  {
    if s != [] {
      var last := |s| - 1;
      MembersCount(s[..last]);
      assert s == s[..last] + [s[last]];
      assert Members(s) == Members(s[..last]) + {s[last]};
    }
  }

  lemma KeepsAll(order: seq<Variant>, chosen: set<Variant>)
    requires forall v :: v in chosen ==> v in order
    ensures Members(Keep(order, chosen)) == chosen
  {
  }

  /** How many are kept is how many of the choice are listed. */
  lemma KeepCount(order: seq<Variant>, chosen: set<Variant>)
    requires Distinct(order) && forall v :: v in chosen ==> v in order
    ensures |Keep(order, chosen)| == |chosen|
  {
    KeepsAll(order, chosen);
    MembersCount(Keep(order, chosen));
  }

  function Taken(limit: nat, writes: nat, n: nat): (k: nat)
    ensures k <= n
  {
    if limit <= writes then 0 else if n <= limit - writes then n else limit - writes
  }

  /** The ledger of a run that has heard of `done`, the client having taken `sent` of them. */
  function RowsAfter(todo: set<Variant>, done: set<Variant>, sent: set<Variant>, goal: map<Variant, Price>): map<Variant, Row>
    requires todo <= goal.Keys
  {
    map v | v in todo :: if v in sent then Row(goal[v], false, Verified, Some(goal[v]), 0)
                         else if v in done then Row(goal[v], false, Failed, None, 1)
                         else Row(goal[v], false, Pending, None, 0)
  }

  function LiveAfter(live: map<Variant, Price>, sent: set<Variant>, goal: map<Variant, Price>): map<Variant, Price>
    requires sent <= goal.Keys
  {
    map v | v in live :: if v in sent then goal[v] else live[v]
  }

  /** The mirror once the run has settled it: what it verified, and nothing for what it did not. */
  function MirrorAfter(mirror: map<Variant, Price>, todo: set<Variant>, sent: set<Variant>, goal: map<Variant, Price>): map<Variant, Price>
    requires sent <= goal.Keys
  {
    map v | v in mirror.Keys + sent && (v in sent || v !in todo) :: if v in sent then goal[v] else mirror[v]
  }

  /** One more row heard of, in order: it was not sent before. */
  lemma NextRow(todo: seq<Variant>, i: nat, n: nat)
    requires Distinct(todo) && n <= i < |todo|
    ensures Members(todo[..i + 1]) == Members(todo[..i]) + {todo[i]}
    ensures todo[i] in Members(todo) && todo[i] !in Members(todo[..i]) && todo[i] !in Members(todo[..n])
    ensures n == i ==> Members(todo[..n + 1]) == Members(todo[..n]) + {todo[i]}
  {
    assert todo[..i + 1] == todo[..i] + [todo[i]];
  }

  function RowFor(price: Price, ok: bool): Row {
    if ok then Row(price, false, Verified, Some(price), 0) else Row(price, false, Failed, None, 1)
  }

  lemma NextSent(live: map<Variant, Price>, all: set<Variant>, done: set<Variant>, sent: set<Variant>, v: Variant,
                 goal: map<Variant, Price>)
    requires sent <= all <= goal.Keys && all <= live.Keys && v in all && v !in sent && v !in done
    ensures RowsAfter(all, done + {v}, sent + {v}, goal) == RowsAfter(all, done, sent, goal)[v := RowFor(goal[v], true)]
    ensures RowsAfter(all, done + {v}, sent, goal) == RowsAfter(all, done, sent, goal)[v := RowFor(goal[v], false)]
    ensures LiveAfter(live, sent + {v}, goal) == LiveAfter(live, sent, goal)[v := goal[v]]
    ensures LiveAfter(live, sent, goal).Keys == live.Keys
  {
  }

  /** What the campaign's records say, and the storefront behind them. */
  datatype Records = Records(live: map<Variant, Price>, mirror: map<Variant, Price>, kind: Option<Kind>,
                             ledger: map<Variant, Row>)

  /**
   * The mirror is right wherever it speaks, and every variant is either outstanding in the latest
   * run, its live price unknown, or at that run's price.
   */
  predicate Right(r: Records, baseline: map<Variant, Price>, sale: map<Variant, Price>) {
    && baseline.Keys == sale.Keys == r.live.Keys
    && r.mirror.Keys <= r.live.Keys && r.ledger.Keys <= r.live.Keys
    && (forall v :: v in r.mirror ==> r.mirror[v] == r.live[v])
    && (forall v :: v in r.ledger ==> r.ledger[v].attempt <= 1)
    && (r.kind.Some? ==> forall v :: v in r.live ==> DecidedOrUnknown(r, Goal(r.kind.value, baseline, sale), v))
  }

  predicate DecidedOrUnknown(r: Records, goal: map<Variant, Price>, v: Variant) {
    if v in r.ledger && !Settled(r.ledger[v].status) then v !in r.mirror
    else v in r.live && v in goal && r.live[v] == goal[v]
  }

  /** The price a run of each kind is for. */
  function Goal(k: Kind, baseline: map<Variant, Price>, sale: map<Variant, Price>): map<Variant, Price> {
    if k == Apply then sale else baseline
  }

  /** What a run of kind `k` has to write. */
  function Wanted(r: Records, k: Kind, resume: bool, goal: map<Variant, Price>): set<Variant> {
    set v | v in goal && (v !in r.mirror || r.mirror[v] != goal[v])
            && (resume && k == Apply && r.kind == Some(Apply) ==> ResumeSends(r.ledger, v))
  }

  /** The records once a run of `k` has sent `sent` of what it chose. */
  function RanOver(r: Records, k: Kind, chosen: set<Variant>, sent: set<Variant>, goal: map<Variant, Price>): Records
    requires sent <= chosen <= goal.Keys
  {
    Records(LiveAfter(r.live, sent, goal), MirrorAfter(r.mirror, chosen, sent, goal), Some(k),
            RowsAfter(chosen, chosen, sent, goal))
  }

  /** A run leaves the records right, whatever it managed to send. */
  lemma RunKeepsRight(r: Records, k: Kind, resume: bool, sent: set<Variant>, baseline: map<Variant, Price>, sale: map<Variant, Price>)
    requires Right(r, baseline, sale)
    requires sent <= Wanted(r, k, resume, Goal(k, baseline, sale))
    ensures var goal := Goal(k, baseline, sale);
            Right(RanOver(r, k, Wanted(r, k, resume, goal), sent, goal), baseline, sale)
  {
    var goal := Goal(k, baseline, sale);
    var chosen := Wanted(r, k, resume, goal);
    var r' := RanOver(r, k, chosen, sent, goal);
    forall v | v in r'.live
      ensures DecidedOrUnknown(r', goal, v)
    {
      if v !in chosen && !(v in r.mirror && r.mirror[v] == goal[v]) {
        assert v in r.ledger && DecidedOrUnknown(r, goal, v);
      }
    }
  }

  class Campaign {
    const order: seq<Variant>
    const baseline: map<Variant, Price>
    const sale: map<Variant, Price>
    var live: map<Variant, Price>
    var mirror: map<Variant, Price>
    var status: CampaignState
    var kind: Option<Kind>
    var ledger: map<Variant, Row>

    constructor (order: seq<Variant>, baseline: map<Variant, Price>, sale: map<Variant, Price>)
      requires Distinct(order) && Members(order) == baseline.Keys == sale.Keys
      ensures Valid() && Told() == Records(baseline, baseline, None, map[])
      ensures this.order == order && this.baseline == baseline && this.sale == sale
    {
      this.order := order;
      this.baseline := baseline;
      this.sale := sale;
      live, mirror := baseline, baseline;
      status, kind, ledger := Draft, None, map[];
    }

    function Told(): Records
      reads this
    {
      Records(live, mirror, kind, ledger)
    }

    ghost predicate Valid()
      reads this
    {
      Distinct(order) && Members(order) == baseline.Keys && Right(Told(), baseline, sale)
    }

    /** One row: sent, and either read back and recorded as verified, or recorded as failed. */
    method SendOne(v: Variant, price: Price, client: Client) returns (ok: bool)
      requires v in live
      modifies this`live, this`ledger, client
      ensures ok == (old(client.writes) < client.limit)
      ensures client.writes == old(client.writes) + if ok then 1 else 0
      ensures live == if ok then old(live)[v := price] else old(live)
      ensures ledger == old(ledger)[v := RowFor(price, ok)]
    {
      ok := client.Request();
      if ok {
        live := live[v := price];
        ledger := ledger[v := Row(price, false, Verified, Some(live[v]), 0)];
      } else {
        ledger := ledger[v := Row(price, false, Failed, None, 1)];
      }
    }

    /** Sends the rows one by one; the client takes the first `n`. */
    method Send(todo: seq<Variant>, goal: map<Variant, Price>, client: Client) returns (n: nat, sent: set<Variant>)
      requires Distinct(todo) && Members(todo) <= goal.Keys && Members(todo) <= live.Keys
      modifies this`live, this`ledger, client
      ensures n == Taken(client.limit, old(client.writes), |todo|) && n <= |todo| && sent == Members(todo[..n])
      ensures sent <= Members(todo)
      ensures live == LiveAfter(old(live), sent, goal)
      ensures ledger == RowsAfter(Members(todo), Members(todo), sent, goal)
    {
      n, sent := 0, {};
      ghost var all := Members(todo);
      ledger := map v | v in todo :: Row(goal[v], false, Pending, None, 0);
      ghost var done: set<Variant> := {};
      for i := 0 to |todo|
        invariant n == Taken(client.limit, old(client.writes), i) && client.writes == old(client.writes) + n
        invariant done == Members(todo[..i])
        invariant sent == Members(todo[..n]) && sent <= all
        invariant live == LiveAfter(old(live), sent, goal)
        invariant ledger == RowsAfter(all, done, sent, goal)
      {
        NextRow(todo, i, n);
        NextSent(old(live), all, done, sent, todo[i], goal);
        var ok := SendOne(todo[i], goal[todo[i]], client);
        if ok {
          sent := sent + {todo[i]};
          n := n + 1;
        }
        done := done + {todo[i]};
      }
      assert todo[..|todo|] == todo;
    }

    /** Sends what was chosen, in order, settles the mirror from it, and moves the campaign to where it ends. */
    method Execute(k: Kind, chosen: set<Variant>, client: Client) returns (verified: nat, failed: nat, sent: set<Variant>)
      requires Distinct(order) && Members(order) == baseline.Keys == sale.Keys && chosen <= baseline.Keys <= live.Keys
      modifies this, client
      ensures var goal, todo := Goal(k, baseline, sale), Keep(order, chosen);
              && verified == Taken(client.limit, old(client.writes), |todo|) && failed == |todo| - verified
              && sent == Members(todo[..verified]) && sent <= chosen <= goal.Keys
              && Told() == RanOver(old(Told()), k, chosen, sent, goal)
      ensures status == FinalState(k, failed == 0)
    {
      var goal := Goal(k, baseline, sale);
      var todo := Keep(order, chosen);
      assert forall v :: v in order <==> v in Members(order);
      KeepsAll(order, chosen);
      verified, sent := Send(todo, goal, client);
      failed := |todo| - verified;
      mirror := MirrorAfter(mirror, chosen, sent, goal);
      kind := Some(k);
      status := FinalState(k, failed == 0);
    }

    /**
     * One whole run. The client takes the first so many rows; those are live and verified, the
     * others failed and unknown, and the campaign is Partial unless there were none.
     */
    method Run(k: Kind, resume: bool, client: Client) returns (verified: nat, failed: nat, sent: set<Variant>)
      requires Valid()
      modifies this, client
      ensures Valid()
      ensures var goal := Goal(k, baseline, sale);
              var chosen := Wanted(old(Told()), k, resume, goal);
              var todo := Keep(order, chosen);
              && verified == Taken(client.limit, old(client.writes), |todo|) && failed == |todo| - verified
              && sent == Members(todo[..verified]) && sent <= chosen
              && Told() == RanOver(old(Told()), k, chosen, sent, goal)
      ensures status == FinalState(k, failed == 0)
    {
      ghost var before := Told();
      var chosen := Wanted(Told(), k, resume, Goal(k, baseline, sale));
      verified, failed, sent := Execute(k, chosen, client);
      RunKeepsRight(before, k, resume, sent, baseline, sale);
    }
  }

  /** Variants at different prices in two lists. */
  function Differ(a: map<Variant, Price>, b: map<Variant, Price>): set<Variant>
    requires a.Keys == b.Keys
  {
    set v | v in a && a[v] != b[v]
  }

  /** A storefront the records know in full, at `prices`. */
  predicate Known(r: Records, prices: map<Variant, Price>) {
    r.live == prices && r.mirror == prices
  }

  /** With everything known, a run chooses what differs; sending all of it, the goal is live and known. */
  lemma FullRun(r: Records, k: Kind, prices: map<Variant, Price>, goal: map<Variant, Price>)
    requires Known(r, prices) && prices.Keys == goal.Keys
    ensures Wanted(r, k, false, goal) == Differ(prices, goal)
    ensures Known(RanOver(r, k, Differ(prices, goal), Differ(prices, goal), goal), goal)
  {
  }

  /**
   * Asked again for what a cut run was for, resumed or afresh, a run chooses what the cut left, and
   * sending it all finishes the job.
   */
  lemma CutThenFinished(r: Records, k: Kind, resume: bool, sent: set<Variant>, prices: map<Variant, Price>, goal: map<Variant, Price>)
    requires Known(r, prices) && prices.Keys == goal.Keys && sent <= Differ(prices, goal)
    ensures var cut := RanOver(r, k, Differ(prices, goal), sent, goal);
            var left := Wanted(cut, k, resume, goal);
            && left == Differ(prices, goal) - sent
            && Known(RanOver(cut, k, left, left, goal), goal)
  {
    var cut := RanOver(r, k, Differ(prices, goal), sent, goal);
    var left := Wanted(cut, k, resume, goal);
    assert left == Differ(prices, goal) - sent;
    assert RanOver(cut, k, left, left, goal).live == goal;
  }

  /** A client with room for every variant takes every row; any client takes so many of them. */
  lemma Takes(order: seq<Variant>, chosen: set<Variant>, n: nat)
    requires Distinct(order) && chosen <= Members(order) && n <= |Keep(order, chosen)|
    ensures |Keep(order, chosen)| == |chosen| <= |order|
    ensures n == |Keep(order, chosen)| ==> Members(Keep(order, chosen)[..n]) == chosen
    ensures |Members(Keep(order, chosen)[..n])| == n
  {
    var todo := Keep(order, chosen);
    Longest(order, chosen);
    KeepCount(order, chosen);
    MembersCount(todo[..n]);
    if n == |todo| {
      assert todo[..n] == todo;
      assert Members(todo) == chosen;
    }
  }

  lemma {:induction false} Longest(order: seq<Variant>, chosen: set<Variant>)
    ensures |Keep(order, chosen)| <= |order|
  {
    if order != [] {
      Longest(order[1..], chosen);
    }
  }

  /** A run nothing interrupts, from a storefront everything is known of, reaches its goal. */
  method RunThrough(c: Campaign, k: Kind, ghost prices: map<Variant, Price>) returns (written: nat)
    requires c.Valid() && Known(c.Told(), prices) && prices.Keys == c.baseline.Keys
    modifies c
    ensures c.Valid() && Known(c.Told(), Goal(k, c.baseline, c.sale))
    ensures written == |Differ(prices, Goal(k, c.baseline, c.sale))| && c.status == FinalState(k, true)
  {
    ghost var goal := Goal(k, c.baseline, c.sale);
    var client := new Client(|c.order|);
    FullRun(c.Told(), k, prices, goal);
    Takes(c.order, Differ(prices, goal), |Keep(c.order, Differ(prices, goal))|);
    var failed, sent;
    written, failed, sent := c.Run(k, false, client);
    assert sent == Differ(prices, goal);
  }

  /** A run cut after `limit` writes. */
  method CutShort(c: Campaign, k: Kind, limit: nat, ghost prices: map<Variant, Price>)
    returns (cut: nat, taken: set<Variant>, partialShown: bool)
    requires c.Valid() && Known(c.Told(), prices) && prices.Keys == c.baseline.Keys
    modifies c
    ensures c.Valid()
    ensures var goal := Goal(k, c.baseline, c.sale);
            var changes := Differ(prices, goal);
            && cut == (if |changes| <= limit then |changes| else limit) && |taken| == cut
            && (partialShown <==> cut < |changes|)
            && taken <= changes && c.Told() == RanOver(old(c.Told()), k, changes, taken, goal)
  {
    var client := new Client(limit);
    FullRun(c.Told(), k, prices, Goal(k, c.baseline, c.sale));
    var failed;
    cut, failed, taken := c.Run(k, false, client);
    Takes(c.order, Differ(prices, Goal(k, c.baseline, c.sale)), cut);
    partialShown := c.status == Partial;
  }

  /** What a cut run left, with nothing in the way this time. */
  method Finish(c: Campaign, k: Kind, resume: bool, ghost before: Records, ghost prices: map<Variant, Price>,
                ghost taken: set<Variant>) returns (finished: nat, rewritten: set<Variant>)
    requires c.Valid() && Known(before, prices) && prices.Keys == c.baseline.Keys
    requires var goal := Goal(k, c.baseline, c.sale);
             taken <= Differ(prices, goal) && c.Told() == RanOver(before, k, Differ(prices, goal), taken, goal)
    modifies c
    ensures var goal := Goal(k, c.baseline, c.sale);
            && c.Valid() && Known(c.Told(), goal)
            && rewritten == Differ(prices, goal) - taken && finished == |rewritten|
  {
    ghost var goal := Goal(k, c.baseline, c.sale);
    ghost var left, cut := Differ(prices, goal) - taken, c.Told();
    CutThenFinished(before, k, resume, taken, prices, goal);
    var client := new Client(|c.order|);
    Takes(c.order, left, |Keep(c.order, left)|);
    var failed;
    finished, failed, rewritten := c.Run(k, resume, client);
    assert rewritten == left && c.Told() == RanOver(cut, k, left, left, goal);
  }

  /**
   * The partial revert script, for any catalogue, any sale and any place to cut: the revert puts
   * back so many prices and leaves the others at the sale's, the campaign is Partial exactly when
   * some are left, and reverting again puts back just those.
   */
  method PartialRevertScript(order: seq<Variant>, baseline: map<Variant, Price>, sale: map<Variant, Price>, limit: nat)
    returns (applied: nat, restored: set<Variant>, live: map<Variant, Price>, partialShown: bool, rest: set<Variant>,
             final: map<Variant, Price>)
    requires Distinct(order) && Members(order) == baseline.Keys == sale.Keys
    ensures applied == |Differ(baseline, sale)|
    ensures restored <= Differ(baseline, sale) && |restored| == if applied <= limit then applied else limit
    ensures live == LiveAfter(sale, restored, baseline)
    ensures partialShown <==> |restored| < applied
    ensures rest == Differ(baseline, sale) - restored && final == baseline
  {
    var c := new Campaign(order, baseline, sale);
    applied := RunThrough(c, Apply, baseline);
    assert Differ(sale, baseline) == Differ(baseline, sale);
    ghost var before := c.Told();
    var n, finished;
    n, restored, partialShown := CutShort(c, Revert, limit, sale);
    live := c.live;
    finished, rest := Finish(c, Revert, false, before, sale, restored);
    final := c.live;
  }

  /**
   * The resume script, for any catalogue, any sale and any place to cut: the clean apply reaches
   * the sale prices; ended, every baseline is back; cut after `limit` writes the campaign is
   * Partial exactly when something was left, and the resume writes just that and reaches the
   * clean apply's prices.
   */
  method ResumeScript(order: seq<Variant>, baseline: map<Variant, Price>, sale: map<Variant, Price>, limit: nat)
    returns (first: nat, cut: nat, resumed: nat, taken: set<Variant>, rewritten: set<Variant>,
             reference: map<Variant, Price>, restored: map<Variant, Price>, final: map<Variant, Price>, partialShown: bool)
    requires Distinct(order) && Members(order) == baseline.Keys == sale.Keys
    ensures reference == sale && restored == baseline && final == reference
    ensures first == |Differ(baseline, sale)|
    ensures cut == (if first <= limit then first else limit) && |taken| == cut
    ensures partialShown <==> cut < first
    ensures resumed == first - cut && rewritten == Differ(baseline, sale) - taken
  {
    var c := new Campaign(order, baseline, sale);
    first := RunThrough(c, Apply, baseline);
    reference := c.live;
    var undone := RunThrough(c, Revert, sale);
    restored := c.live;
    ghost var ended := c.Told();
    cut, taken, partialShown := CutShort(c, Apply, limit, baseline);
    resumed, rewritten := Finish(c, Apply, true, ended, baseline, taken);
    final := c.live;
  }
}
