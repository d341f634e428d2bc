/** The run planner: what each candidate should be, diffed against what the mirror says it is. */
module Planner {
  import opened Wrappers
  import opened Ranking
  import opened Resolver
  import opened ResolverPromises

  type Variant = nat

  /** A campaign taking part in a plan; no scope means every candidate. */
  datatype Plannable = Plannable(campaign: Campaign, scope: Option<set<Variant>>, excluded: set<Variant>)

  datatype Candidate = Candidate(variant: Variant, input: Input, livePrice: Option<int>, liveCompareAt: Option<int>)

  /** What a compare-at write does: nothing, remove, or set. */
  datatype Decision =
    | WriteRow(price: int, compareAt: NewCompareAt, clamped: bool)
    | Unchanged
    | SkipRow(reason: Reason)
    | HeldRow
    | BlockRow(reason: Reason)
    | ThrowRow

  predicate ValidPlannables(ps: seq<Plannable>) {
    forall p :: p in ps ==> ValidCampaign(p.campaign)
  }

  /** The campaigns offered a variant: its scope covers it and it was not reverted out of it. */
  function Applicable(ps: seq<Plannable>, v: Variant): (cs: seq<Campaign>)
    ensures forall c :: c in cs ==> exists p :: p in ps && p.campaign == c && v !in p.excluded && (p.scope.None? || v in p.scope.value)
    ensures forall p :: p in ps && v !in p.excluded && (p.scope.None? || v in p.scope.value) ==> p.campaign in cs
  {
    if ps == [] then []
    else
      var rest := Applicable(ps[1..], v);
      assert ps == [ps[0]] + ps[1..];
      if v !in ps[0].excluded && (ps[0].scope.None? || v in ps[0].scope.value) then [ps[0].campaign] + rest else rest
  }

  /** A resolution as a write: the baseline's own compare-at comes back with its price. */
  function Intended(r: Resolution): Option<(int, NewCompareAt, bool)> {
    match r
    case AtBaseline(price, compareAt) =>
      Some((price, if compareAt.None? then Cleared else Struck(compareAt.value), false))
    case Priced(price, compareAt, clamped, _) => Some((price, compareAt, clamped))
    case _ => None
  }

  /** The storefront already shows it. A live price nobody knows never does. */
  predicate IsNoop(price: int, compareAt: NewCompareAt, c: Candidate) {
    && c.livePrice == Some(price)
    && match compareAt
       case Untouched => true
       case Cleared => c.liveCompareAt.None?
       case Struck(value) => c.liveCompareAt == Some(value)
  }

  function Decide(ps: seq<Plannable>, held: set<Variant>, c: Candidate): Decision
    requires ValidPlannables(ps) && ValidInput(c.input)
  {
    if c.variant in held then HeldRow else DecideOn(Resolve(Applicable(ps, c.variant), c.input), c)
  }

  /** A resolution set against what the storefront shows. */
  function DecideOn(r: Resolution, c: Candidate): Decision {
    match r
    case Blocked(reason) => BlockRow(reason)
    case Skipped(reason) => SkipRow(reason)
    case Thrown => ThrowRow
    case _ =>
      var (price, compareAt, clamped) := Intended(r).value;
      if IsNoop(price, compareAt, c) then Unchanged else WriteRow(price, compareAt, clamped)
  }

  datatype Planned = Planned(variant: Variant, decision: Decision)

  datatype Counts = Counts(planned: nat, noop: nat, skipped: nat, clamped: nat)

  datatype Outcome = BlockedRun(blocked: seq<Variant>) | Ready(rows: seq<Planned>, same: seq<Variant>) | ThrownRun

  predicate ValidCandidates(cs: seq<Candidate>) {
    forall c :: c in cs ==> ValidInput(c.input)
  }

  /** Each variant's decision, by its first candidate. */
  function Decisions(ps: seq<Plannable>, held: set<Variant>, cs: seq<Candidate>): (m: map<Variant, Decision>)
    requires ValidPlannables(ps) && ValidCandidates(cs)
    ensures forall v :: v in m <==> exists k :: 0 <= k < |cs| && cs[k].variant == v
  {
    if cs == [] then map[]
    else
      var last := |cs| - 1;
      var m := Decisions(ps, held, cs[..last]);
      if cs[last].variant in m then m else m[cs[last].variant := Decide(ps, held, cs[last])]
  }

  lemma {:induction false} DecisionsGrow(ps: seq<Plannable>, held: set<Variant>, cs: seq<Candidate>, n: nat, v: Variant)
    requires ValidPlannables(ps) && ValidCandidates(cs) && n <= |cs|
    requires v in Decisions(ps, held, cs[..n])
    ensures v in Decisions(ps, held, cs) && Decisions(ps, held, cs)[v] == Decisions(ps, held, cs[..n])[v]
    decreases |cs|
  {
    if n < |cs| {
      var front := cs[..|cs| - 1];
      assert front[..n] == cs[..n];
      assert forall c :: c in front ==> c in cs;
      DecisionsGrow(ps, held, front, n, v);
    } else {
      assert cs[..n] == cs;
    }
  }

  /** A decision that becomes a ledger row: written, or left alone and said so. */
  predicate IsRow(d: Decision) {
    d.WriteRow? || d.SkipRow? || d.HeldRow?
  }

  predicate DistinctRows(rows: seq<Planned>) {
    forall i, j :: 0 <= i < j < |rows| ==> rows[i].variant != rows[j].variant
  }

  /** The three lists say exactly what the decisions do. */
  ghost predicate Sorted(m: map<Variant, Decision>, rows: seq<Planned>, same: seq<Variant>, blocked: seq<Variant>) {
    && DistinctRows(rows)
    && (forall r :: r in rows <==> r.variant in m && m[r.variant] == r.decision && IsRow(r.decision))
    && (forall v :: v in same <==> v in m && m[v].Unchanged?)
    && (forall v :: v in blocked <==> v in m && m[v].BlockRow?)
    && (forall v :: v in m ==> !m[v].ThrowRow?)
  }

  /** Filing one more variant's decision in the list it belongs to. */
  lemma Files(m: map<Variant, Decision>, rows: seq<Planned>, same: seq<Variant>, blocked: seq<Variant>, v: Variant, d: Decision)
    requires Sorted(m, rows, same, blocked) && v !in m && !d.ThrowRow?
    ensures IsRow(d) ==> Sorted(m[v := d], rows + [Planned(v, d)], same, blocked)
    ensures d.Unchanged? ==> Sorted(m[v := d], rows, same + [v], blocked)
    ensures d.BlockRow? ==> Sorted(m[v := d], rows, same, blocked + [v])
  {
    if IsRow(d) {
      var rows' := rows + [Planned(v, d)];
      assert forall r :: r in rows' <==> r in rows || r == Planned(v, d);
      assert forall k :: 0 <= k < |rows| ==> rows[k] in rows;
    }
  }

  predicate PricedRow(d: Decision) {
    d.WriteRow?
  }

  predicate ClampedRow(d: Decision) {
    d.WriteRow? && d.clamped
  }

  predicate SameRow(d: Decision) {
    d.Unchanged?
  }

  predicate LeftRow(d: Decision) {
    d.SkipRow? || d.HeldRow?
  }

  /** The variants decided a certain way. */
  function DecidedAs(m: map<Variant, Decision>, p: Decision -> bool): set<Variant> {
    set v | v in m && p(m[v])
  }

  /** Each count is how many variants were decided that way; a held variant counts as skipped. */
  ghost predicate CountsOf(m: map<Variant, Decision>, counts: Counts) {
    && counts.planned == |DecidedAs(m, PricedRow)|
    && counts.clamped == |DecidedAs(m, ClampedRow)|
    && counts.noop == |DecidedAs(m, SameRow)|
    && counts.skipped == |DecidedAs(m, LeftRow)|
  }

  lemma OneMoreDecided(m: map<Variant, Decision>, v: Variant, d: Decision, p: Decision -> bool)
    requires v !in m
    ensures |DecidedAs(m[v := d], p)| == |DecidedAs(m, p)| + if p(d) then 1 else 0
  {
    assert DecidedAs(m[v := d], p) == DecidedAs(m, p) + if p(d) then {v} else {};
  }

  /** Counting one more variant's decision in the count it belongs to. */
  lemma CountsGrow(m: map<Variant, Decision>, v: Variant, d: Decision, counts: Counts)
    requires CountsOf(m, counts) && v !in m
    ensures CountsOf(m[v := d], Counts(counts.planned + (if d.WriteRow? then 1 else 0),
                                       counts.noop + (if d.Unchanged? then 1 else 0),
                                       counts.skipped + (if d.SkipRow? || d.HeldRow? then 1 else 0),
                                       counts.clamped + (if d.WriteRow? && d.clamped then 1 else 0)))
  {
    OneMoreDecided(m, v, d, PricedRow);
    OneMoreDecided(m, v, d, ClampedRow);
    OneMoreDecided(m, v, d, SameRow);
    OneMoreDecided(m, v, d, LeftRow);
  }

  /** One more candidate looked at: the decision its variant gets, unless it has one already. */
  method DecideNext(ps: seq<Plannable>, held: set<Variant>, cs: seq<Candidate>, i: nat) returns (d: Decision)
    requires ValidPlannables(ps) && ValidCandidates(cs) && i < |cs|
    ensures var m := Decisions(ps, held, cs[..i]);
            Decisions(ps, held, cs[..i + 1]) == if cs[i].variant in m then m else m[cs[i].variant := d]
  {
    assert cs[..i + 1][..i] == cs[..i];
    d := Decide(ps, held, cs[i]);
  }

  /** Where a variant's first candidate is; past the end when it has none. */
  function First(cs: seq<Candidate>, v: Variant): (k: nat)
    ensures k <= |cs| && (k < |cs| ==> cs[k].variant == v)
    ensures forall j :: 0 <= j < k ==> cs[j].variant != v
  {
    if cs == [] || cs[0].variant == v then 0 else 1 + First(cs[1..], v)
  }

  /** Rows come in the order their variants did. */
  predicate RowsInOrder(cs: seq<Candidate>, rows: seq<Planned>) {
    forall i, j :: 0 <= i < j < |rows| ==> First(cs, rows[i].variant) < First(cs, rows[j].variant)
  }

  predicate InOrder(cs: seq<Candidate>, vs: seq<Variant>) {
    forall i, j :: 0 <= i < j < |vs| ==> First(cs, vs[i]) < First(cs, vs[j])
  }

  /** The three lists, each in the candidates' order. */
  predicate Ordered(cs: seq<Candidate>, rows: seq<Planned>, same: seq<Variant>, blocked: seq<Variant>) {
    RowsInOrder(cs, rows) && InOrder(cs, same) && InOrder(cs, blocked)
  }

  /** A plan that throws, one that is blocked and by whom, or one that is ready, says what the decisions do. */
  ghost predicate OutcomeOf(cs: seq<Candidate>, m: map<Variant, Decision>, outcome: Outcome, counts: Counts) {
    match outcome
    case ThrownRun => exists v :: v in m && m[v].ThrowRow?
    case BlockedRun(blocked) => blocked != [] && InOrder(cs, blocked) && forall v :: v in blocked <==> v in m && m[v].BlockRow?
    case Ready(rows, same) => Sorted(m, rows, same, []) && Ordered(cs, rows, same, []) && CountsOf(m, counts)
  }

  /** The plan so far: the variants seen, the lists they were filed in, and the counts. */
  datatype Draft = Draft(seen: set<Variant>, rows: seq<Planned>, same: seq<Variant>, blocked: seq<Variant>, counts: Counts)

  ghost predicate Filed(cs: seq<Candidate>, m: map<Variant, Decision>, p: Draft) {
    && p.seen == m.Keys && Sorted(m, p.rows, p.same, p.blocked) && CountsOf(m, p.counts)
    && Ordered(cs, p.rows, p.same, p.blocked)
  }

  /** A variant that throws among the first candidates throws the whole plan. */
  lemma Throws(ps: seq<Plannable>, held: set<Variant>, cs: seq<Candidate>, n: nat, v: Variant, counts: Counts)
    requires ValidPlannables(ps) && ValidCandidates(cs) && n <= |cs|
    requires v in Decisions(ps, held, cs[..n]) && Decisions(ps, held, cs[..n])[v].ThrowRow?
    ensures OutcomeOf(cs, Decisions(ps, held, cs), ThrownRun, counts)
  {
    DecisionsGrow(ps, held, cs, n, v);
  }

  /** What is filed once every candidate has been looked at is the plan, or says who blocks it. */
  lemma Finishes(cs: seq<Candidate>, m: map<Variant, Decision>, p: Draft)
    requires Filed(cs, m, p)
    ensures OutcomeOf(cs, m, if p.blocked != [] then BlockedRun(p.blocked) else Ready(p.rows, p.same), p.counts)
  {
  }

  /** A variant whose first candidate is this one comes after all that came before. */
  lemma ComesLast(cs: seq<Candidate>, vs: seq<Variant>, i: nat)
    requires i < |cs| && First(cs, cs[i].variant) >= i && InOrder(cs, vs) && forall v :: v in vs ==> First(cs, v) < i
    ensures InOrder(cs, vs + [cs[i].variant])
  {
    assert forall j :: 0 <= j < |vs| ==> vs[j] in vs;
  }

  lemma RowComesLast(cs: seq<Candidate>, rows: seq<Planned>, i: nat, d: Decision)
    requires i < |cs| && First(cs, cs[i].variant) >= i && RowsInOrder(cs, rows)
    requires forall r :: r in rows ==> First(cs, r.variant) < i
    ensures RowsInOrder(cs, rows + [Planned(cs[i].variant, d)])
  {
    assert forall j :: 0 <= j < |rows| ==> rows[j] in rows;
  }

  /** The decision of a variant is that of its first candidate. */
  lemma DecidedByFirst(ps: seq<Plannable>, held: set<Variant>, cs: seq<Candidate>, v: Variant)
    requires ValidPlannables(ps) && ValidCandidates(cs) && First(cs, v) < |cs|
    ensures v in Decisions(ps, held, cs) && Decisions(ps, held, cs)[v] == Decide(ps, held, cs[First(cs, v)])
  {
    var k := First(cs, v);
    DecidedOnceSeen(ps, held, cs, k);
    DecisionsGrow(ps, held, cs, k + 1, v);
  }

  lemma DecidedOnceSeen(ps: seq<Plannable>, held: set<Variant>, cs: seq<Candidate>, k: nat)
    requires ValidPlannables(ps) && ValidCandidates(cs) && k < |cs| && forall j :: 0 <= j < k ==> cs[j].variant != cs[k].variant
    ensures var m := Decisions(ps, held, cs[..k + 1]); cs[k].variant in m && m[cs[k].variant] == Decide(ps, held, cs[k])
  {
    assert cs[..k + 1][..k] == cs[..k] && cs[..k + 1][k] == cs[k];
  }

  /** What has been decided is what has come. */
  ghost predicate Came(cs: seq<Candidate>, m: map<Variant, Decision>, i: nat) {
    forall v :: v in m <==> First(cs, v) < i
  }

  lemma AllComeLast(cs: seq<Candidate>, m: map<Variant, Decision>, p: Draft, i: nat, d: Decision)
    requires i < |cs| && Filed(cs, m, p) && cs[i].variant !in m && Came(cs, m, i)
    ensures RowsInOrder(cs, p.rows + [Planned(cs[i].variant, d)])
    ensures InOrder(cs, p.same + [cs[i].variant]) && InOrder(cs, p.blocked + [cs[i].variant])
  {
    RowComesLast(cs, p.rows, i, d);
    ComesLast(cs, p.same, i);
    ComesLast(cs, p.blocked, i);
  }

  /** One variant's decision filed in the list it belongs to, and counted. */
  method FileOne(ghost cs: seq<Candidate>, ghost m: map<Variant, Decision>, p: Draft, ghost i: nat, v: Variant, d: Decision)
    returns (p': Draft)
    requires Filed(cs, m, p) && !d.ThrowRow? && i < |cs| && v == cs[i].variant && v !in m
    requires Came(cs, m, i)
    ensures Filed(cs, m[v := d], p')
  {
    Files(m, p.rows, p.same, p.blocked, v, d);
    CountsGrow(m, v, d, p.counts);
    AllComeLast(cs, m, p, i, d);
    p' := p.(seen := p.seen + {v});
    if d.BlockRow? {
      p' := p'.(blocked := p.blocked + [v]);
    } else if d.Unchanged? {
      p' := p'.(same := p.same + [v], counts := p.counts.(noop := p.counts.noop + 1));
    } else if d.WriteRow? {
      p' := p'.(rows := p.rows + [Planned(v, d)],
                counts := p.counts.(planned := p.counts.planned + 1, clamped := p.counts.clamped + if d.clamped then 1 else 0));
    } else {
      p' := p'.(rows := p.rows + [Planned(v, d)], counts := p.counts.(skipped := p.counts.skipped + 1));
    }
  }

  /** One candidate: its variant decided and filed if it is the first of it. */
  method PlanNext(ps: seq<Plannable>, held: set<Variant>, cs: seq<Candidate>, i: nat, p: Draft) returns (p': Draft, threw: bool)
    requires ValidPlannables(ps) && ValidCandidates(cs) && i < |cs| && Filed(cs, Decisions(ps, held, cs[..i]), p)
    ensures threw ==> OutcomeOf(cs, Decisions(ps, held, cs), ThrownRun, p.counts)
    ensures !threw ==> Filed(cs, Decisions(ps, held, cs[..i + 1]), p')
  {
    var v := cs[i].variant;
    var d := DecideNext(ps, held, cs, i);
    p', threw := p, false;
    if v !in p.seen {
      if d.ThrowRow? {
        Throws(ps, held, cs, i + 1, v, p.counts);
        return p, true;
      }
      SeenSoFar(ps, held, cs, i);
      p' := FileOne(cs, Decisions(ps, held, cs[..i]), p, i, v, d);
    }
  }

  lemma SeenSoFar(ps: seq<Plannable>, held: set<Variant>, cs: seq<Candidate>, i: nat)
    requires ValidPlannables(ps) && ValidCandidates(cs) && i <= |cs|
    ensures Came(cs, Decisions(ps, held, cs[..i]), i)
  {
    forall v
      ensures v in Decisions(ps, held, cs[..i]) <==> First(cs, v) < i
    {
      if First(cs, v) < i {
        assert cs[..i][First(cs, v)].variant == v;
      }
    }
  }

  // -------------------------------------------------- decisions and resolutions

  /** A candidate as it stands once its planned row has been written. */
  function Written(c: Candidate, d: Decision): Candidate
    requires d.WriteRow?
  {
    c.(livePrice := Some(d.price),
       liveCompareAt := match d.compareAt
                        case Untouched => c.liveCompareAt
                        case Cleared => None
                        case Struck(value) => Some(value))
  }

  /** The price and strike-through the storefront shows once a decision is carried out. */
  function Shown(c: Candidate, d: Decision): (Option<int>, Option<int>) {
    var after := if d.WriteRow? then Written(c, d) else c;
    (after.livePrice, after.liveCompareAt)
  }

  /** A decision leaves the storefront at that price and strike-through, and writes only what is not there yet. */
  predicate LeavesAt(c: Candidate, d: Decision, price: int, compareAt: Option<int>, clamped: bool) {
    && (d.WriteRow? || d.Unchanged?)
    && Shown(c, d) == (Some(price), compareAt)
    && (d.WriteRow? ==> Written(c, d) != c && d.clamped == clamped)
  }

  /** What a candidate's resolution makes of it, unless a hand edit holds the variant. */
  ghost predicate Follows(c: Candidate, isHeld: bool, r: Resolution, d: Decision) {
    if isHeld then d == HeldRow
    else
      match r
      case AtBaseline(price, compareAt) =>
        LeavesAt(c, d, price, compareAt, false) && (d.WriteRow? ==> !d.compareAt.Untouched?)
      case Priced(price, shown, clamped, _) =>
        && LeavesAt(c, d, price,
                    if shown.Struck? then Some(shown.value) else if shown.Cleared? then None else c.liveCompareAt, clamped)
        && (d.WriteRow? ==> d.compareAt == shown)
      case Skipped(reason) => d == SkipRow(reason)
      case Blocked(reason) => d == BlockRow(reason)
      case Thrown => d == ThrowRow
  }

  /** What the campaigns offered its first candidate make of a variant, whatever comes of it. */
  ghost predicate FollowsFirst(ps: seq<Plannable>, held: set<Variant>, cs: seq<Candidate>, v: Variant, d: Decision)
    requires ValidPlannables(ps) && ValidCandidates(cs)
  {
    && First(cs, v) < |cs|
    && Follows(cs[First(cs, v)], v in held, Resolve(Applicable(ps, v), cs[First(cs, v)].input), d)
  }

  /** Every candidate's variant is planned as its campaigns resolve it, and no other variant is planned at all. */
  ghost predicate PlannedAsResolved(ps: seq<Plannable>, held: set<Variant>, cs: seq<Candidate>, outcome: Outcome)
    requires ValidPlannables(ps) && ValidCandidates(cs)
  {
    match outcome
    case ThrownRun => exists v :: FollowsFirst(ps, held, cs, v, ThrowRow)
    case BlockedRun(blocked) => forall v :: v in blocked <==> exists reason :: FollowsFirst(ps, held, cs, v, BlockRow(reason))
    case Ready(rows, same) =>
      && (forall r :: r in rows ==> FollowsFirst(ps, held, cs, r.variant, r.decision))
      && (forall v :: v in same ==> FollowsFirst(ps, held, cs, v, Unchanged))
      && (forall c :: c in cs ==> c.variant in same || exists r :: r in rows && r.variant == c.variant)
  }

  lemma DecideOnFollows(r: Resolution, c: Candidate)
    ensures Follows(c, false, r, DecideOn(r, c))
  {
  }

  lemma DecidedFollows(ps: seq<Plannable>, held: set<Variant>, cs: seq<Candidate>, v: Variant)
    requires ValidPlannables(ps) && ValidCandidates(cs) && v in Decisions(ps, held, cs)
    ensures FollowsFirst(ps, held, cs, v, Decisions(ps, held, cs)[v])
  {
    DecidedByFirst(ps, held, cs, v);
    var c := cs[First(cs, v)];
    DecideOnFollows(Resolve(Applicable(ps, v), c.input), c);
  }

  lemma PlansAsResolved(ps: seq<Plannable>, held: set<Variant>, cs: seq<Candidate>, outcome: Outcome, counts: Counts)
    requires ValidPlannables(ps) && ValidCandidates(cs) && OutcomeOf(cs, Decisions(ps, held, cs), outcome, counts)
    ensures PlannedAsResolved(ps, held, cs, outcome)
  {
    var m := Decisions(ps, held, cs);
    forall v | v in m
      ensures FollowsFirst(ps, held, cs, v, m[v])
    {
      DecidedFollows(ps, held, cs, v);
    }
    if outcome.BlockedRun? {
      BlocksAsResolved(ps, held, cs, outcome.blocked);
    }
    if outcome.Ready? {
      EveryoneIsListed(cs, m, outcome.rows, outcome.same);
    }
  }

  lemma EveryoneIsListed(cs: seq<Candidate>, m: map<Variant, Decision>, rows: seq<Planned>, same: seq<Variant>)
    requires Sorted(m, rows, same, []) && forall c :: c in cs ==> c.variant in m
    ensures forall c :: c in cs ==> c.variant in same || exists r :: r in rows && r.variant == c.variant
  {
    forall c | c in cs
      ensures c.variant in same || exists r :: r in rows && r.variant == c.variant
    {
      if IsRow(m[c.variant]) {
        assert Planned(c.variant, m[c.variant]) in rows;
      }
    }
  }

  lemma BlocksAsResolved(ps: seq<Plannable>, held: set<Variant>, cs: seq<Candidate>, blocked: seq<Variant>)
    requires ValidPlannables(ps) && ValidCandidates(cs)
    requires forall v :: v in blocked <==> v in Decisions(ps, held, cs) && Decisions(ps, held, cs)[v].BlockRow?
    ensures PlannedAsResolved(ps, held, cs, BlockedRun(blocked))
  {
    forall v
      ensures v in blocked <==> exists reason :: FollowsFirst(ps, held, cs, v, BlockRow(reason))
    {
      BlockedAsResolved(ps, held, cs, v);
    }
  }

  lemma BlockedAsResolved(ps: seq<Plannable>, held: set<Variant>, cs: seq<Candidate>, v: Variant)
    requires ValidPlannables(ps) && ValidCandidates(cs)
    ensures var m := Decisions(ps, held, cs);
            v in m && m[v].BlockRow? <==> exists reason :: FollowsFirst(ps, held, cs, v, BlockRow(reason))
  {
    var m := Decisions(ps, held, cs);
    if v in m {
      DecidedFollows(ps, held, cs, v);
      var c := cs[First(cs, v)];
      BlockFollows(c, v in held, Resolve(Applicable(ps, v), c.input), m[v]);
      if m[v].BlockRow? {
        assert FollowsFirst(ps, held, cs, v, BlockRow(m[v].reason));
      }
    }
  }

  lemma BlockFollows(c: Candidate, isHeld: bool, r: Resolution, d: Decision)
    requires Follows(c, isHeld, r, d)
    ensures d.BlockRow? <==> exists reason :: Follows(c, isHeld, r, BlockRow(reason))
  {
    if !isHeld && r.Blocked? {
      assert Follows(c, isHeld, r, BlockRow(r.reason));
    }
  }

  /**
   * One pass over the candidates. Each variant is decided once, by its first candidate, and ends
   * in exactly one list, in the order they came; one blocked variant and there is no plan at all.
   */
  method PlanRun(ps: seq<Plannable>, held: set<Variant>, cs: seq<Candidate>) returns (outcome: Outcome, counts: Counts)
    requires ValidPlannables(ps) && ValidCandidates(cs)
    ensures OutcomeOf(cs, Decisions(ps, held, cs), outcome, counts)
    ensures PlannedAsResolved(ps, held, cs, outcome)
  {
    var p := Draft({}, [], [], [], Counts(0, 0, 0, 0));
    for i := 0 to |cs|
      invariant Filed(cs, Decisions(ps, held, cs[..i]), p)
    {
      var threw;
      p, threw := PlanNext(ps, held, cs, i, p);
      if threw {
        PlansAsResolved(ps, held, cs, ThrownRun, p.counts);
        return ThrownRun, p.counts;
      }
    }
    assert cs[..|cs|] == cs;
    Finishes(cs, Decisions(ps, held, cs), p);
    counts := p.counts;
    outcome := if p.blocked != [] then BlockedRun(p.blocked) else Ready(p.rows, p.same);
    PlansAsResolved(ps, held, cs, outcome, counts);
  }

  // --------------------------------------------------------------- promises

  /**
   * Re-planning is idempotent: rules read the baseline and never the live price, so a variant
   * written as planned plans as unchanged, and one planned as unchanged goes on doing so.
   */
  lemma ReplanningWritesNothing(ps: seq<Plannable>, held: set<Variant>, c: Candidate, live: Option<int>, strike: Option<int>)
    requires ValidPlannables(ps) && ValidInput(c.input)
    ensures var d := Decide(ps, held, c);
            && (d.WriteRow? ==> Decide(ps, held, Written(c, d)).Unchanged?)
            && (d.Unchanged? ==> c.livePrice.Some?)
            && (!d.WriteRow? && !d.Unchanged? ==> Decide(ps, held, c.(livePrice := live, liveCompareAt := strike)) == d)
  {
  }

  /** The campaign all others yield to puts a price there: within its limits and the store's, rounded and struck through as it says. */
  ghost predicate PricedBy(offered: seq<Campaign>, c: Campaign, i: Input, d: Decision)
    requires d.WriteRow?
  {
    && c in offered && (forall other :: other in offered ==> Yields(other.rank, c.rank))
    && Allowed(c, i, d.price)
    && (exists rule, u :: EndsAt(c, i, rule, u, d.price, d.clamped))
    && StrikesAs(c, i, d.price, d.compareAt)
  }

  /** The baseline comes back, with its own strike-through: nobody is offered the variant, or the one others yield to has no row for it. */
  ghost predicate BaselineBack(offered: seq<Campaign>, i: Input, d: Decision) {
    && d == WriteRow(i.baseline.price, if i.baseline.compareAt.Some? then Struck(i.baseline.compareAt.value) else Cleared, false)
    && (offered == [] || exists c :: c in offered && (forall other :: other in offered ==> Yields(other.rank, c.rank))
                          && NoRow(c.rules, i.segments))
  }

  /** A row written is the baseline coming back, or a price its elected campaign makes that respects the store's limits and its own. */
  lemma WrittenRowsAreMeant(ps: seq<Plannable>, held: set<Variant>, cs: seq<Candidate>, v: Variant, d: Decision)
    requires ValidPlannables(ps) && ValidCandidates(cs) && FollowsFirst(ps, held, cs, v, d) && d.WriteRow?
    ensures var offered, i := Applicable(ps, v), cs[First(cs, v)].input;
            BaselineBack(offered, i, d) || exists c :: PricedBy(offered, c, i, d)
  {
    var offered, i := Applicable(ps, v), cs[First(cs, v)].input;
    if offered != [] {
      var c := Elected(offered, i);
      RowIsMeant(offered, c, cs[First(cs, v)], Resolve(offered, i), d);
    }
  }

  lemma RowIsMeant(offered: seq<Campaign>, c: Campaign, x: Candidate, res: Resolution, d: Decision)
    requires c in offered && (forall other :: other in offered ==> Yields(other.rank, c.rank))
    requires Meant(c, x.input, res) && Follows(x, false, res, d) && d.WriteRow?
    ensures BaselineBack(offered, x.input, d) || PricedBy(offered, c, x.input, d)
  {
  }

  lemma Elected(offered: seq<Campaign>, i: Input) returns (c: Campaign)
    requires ValidInput(i) && (forall c :: c in offered ==> ValidCampaign(c)) && offered != []
    ensures c in offered && (forall other :: other in offered ==> Yields(other.rank, c.rank)) && Meant(c, i, Resolve(offered, i))
  {
    ResolveAnswers(offered, i);
    c :| c in offered && (forall other :: other in offered ==> Yields(other.rank, c.rank)) && Meant(c, i, Resolve(offered, i));
  }

  /** The plannable campaigns with one taken out: what a revert resolves among. */
  function Without(ps: seq<Plannable>, id: string): (r: seq<Plannable>)
    ensures forall p :: p in r <==> p in ps && p.campaign.rank.id != id
  {
    if ps == [] then []
    else
      assert ps == [ps[0]] + ps[1..];
      (if ps[0].campaign.rank.id == id then [] else [ps[0]]) + Without(ps[1..], id)
  }

  /**
   * A revert recomputes: with nothing else on the variant it writes the baseline exactly, whatever
   * the ending campaign's rule was, and writes nothing when the storefront already shows it.
   */
  lemma RevertGivesBaseline(ps: seq<Plannable>, id: string, held: set<Variant>, c: Candidate)
    requires ValidPlannables(ps) && ValidInput(c.input) && c.variant !in held
    requires forall p :: p in ps && p.campaign.rank.id != id ==> c.variant in p.excluded
    ensures var d := Decide(Without(ps, id), held, c);
            || (d.Unchanged? && c.livePrice == Some(c.input.baseline.price))
            || (d.WriteRow? && d.price == c.input.baseline.price && !d.clamped
                && (c.input.baseline.compareAt.Some? ==> d.compareAt == Struck(c.input.baseline.compareAt.value))
                && (c.input.baseline.compareAt.None? ==> d.compareAt == Cleared))
  {
    NothingApplies(Without(ps, id), c.variant);
  }

  lemma {:induction false} NothingApplies(ps: seq<Plannable>, v: Variant)
    requires forall p :: p in ps ==> v in p.excluded
    ensures Applicable(ps, v) == []
  {
    if ps != [] {
      assert ps[0] in ps;
      assert forall p :: p in ps[1..] ==> p in ps;
      NothingApplies(ps[1..], v);
    }
  }
}
