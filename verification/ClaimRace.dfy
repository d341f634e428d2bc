/**
 * How a run takes its campaign, one request at a time: it looks for a live run and for an operation
 * of the campaign's own, reads the campaign's state, moves it on the condition that the state has not
 * changed meanwhile, and puts up its run row, of which the database keeps one live at a time. Any
 * number of processes do so at once, and each may throw, stand down or die at any point.
 */
module ClaimRace {
  import opened Wrappers
  import opened Lifecycle

  type Process = nat

  datatype Stage = Looked | Read(from: CampaignState) | Moved | Writing | Out

  /** `found` is the state the campaign was in to begin with; `seen`, how many runs there had been by the look. */
  datatype Contender = Contender(kind: Kind, found: CampaignState, stage: Stage, seen: nat)

  /** The live run row. */
  datatype Live = Live(owner: Process, kind: Kind)

  /** `sent` says that an operation is on record and Shopify has not finished it. */
  datatype Race = Race(status: CampaignState, live: Option<Live>, sent: bool, begun: nat, contenders: map<Process, Contender>)

  datatype Event =
    | Looks(i: Process, kind: Kind)
    | Reads(i: Process)
    | Refused(i: Process)
    | Moves(i: Process)
    | Throws(i: Process)
    | Opens(i: Process)
    | Submits(i: Process)
    | OpEnds
    | Finishes(i: Process, clean: bool)
    | Dies(i: Process)
    | Reaped

  predicate In(s: Race, i: Process, stage: Stage) {
    i in s.contenders && s.contenders[i].stage == stage
  }

  predicate Legally(s: Race, i: Process)
    requires i in s.contenders
  {
    CanTransition(s.status, ClaimState(s.contenders[i].kind))
  }

  predicate Enabled(s: Race, e: Event) {
    match e
    case Looks(i, _) => i !in s.contenders && s.live.None? && !s.sent
    case Reads(i) => In(s, i, Looked) && Legally(s, i)
    case Refused(i) => In(s, i, Looked) && !Legally(s, i)
    case Moves(i) => i in s.contenders && s.contenders[i].stage.Read?
    case Throws(i) => In(s, i, Moved)
    case Opens(i) => In(s, i, Moved)
    case Submits(i) => In(s, i, Writing) && !s.sent
    case OpEnds => s.sent
    case Finishes(i, _) => In(s, i, Writing) && !s.sent
    case Dies(i) => i in s.contenders && !s.contenders[i].stage.Out?
    case Reaped => s.live.Some? && !In(s, s.live.value.owner, Writing)
  }

  predicate IsClaim(status: CampaignState) {
    status == Applying || status == Reverting
  }

  function At(s: Race, i: Process, stage: Stage): map<Process, Contender>
    requires i in s.contenders
  {
    s.contenders[i := s.contenders[i].(stage := stage)]
  }

  /** The state after a claim is given back: only a claim is, and only with no run live. */
  function GivenBack(status: CampaignState, live: Option<Live>, found: CampaignState): CampaignState {
    if IsClaim(status) && live.None? && !IsClaim(found) then found else status
  }

  function Step(s: Race, e: Event): Race
    requires Enabled(s, e)
  {
    match e
    case Looks(i, kind) => s.(contenders := s.contenders[i := Contender(kind, s.status, Looked, s.begun)])
    case Reads(i) => s.(contenders := At(s, i, Read(s.status)))
    // The refusal throws, and whatever claim stands is given back.
    case Refused(i) => s.(status := GivenBack(s.status, s.live, s.contenders[i].found), contenders := At(s, i, Out))
    // Whether the move took is not asked.
    case Moves(i) =>
      s.(status := if s.status == s.contenders[i].stage.from then ClaimState(s.contenders[i].kind) else s.status,
         contenders := At(s, i, Moved))
    case Throws(i) => s.(status := GivenBack(s.status, s.live, s.contenders[i].found), contenders := At(s, i, Out))
    case Opens(i) =>
      if s.live.None? then
        s.(live := Some(Live(i, s.contenders[i].kind)), begun := s.begun + 1, contenders := At(s, i, Writing))
      else s.(contenders := At(s, i, Out))
    case Submits(_) => s.(sent := true)
    case OpEnds => s.(sent := false)
    case Finishes(i, clean) =>
      var final := FinalState(s.contenders[i].kind, clean);
      s.(live := None, contenders := At(s, i, Out),
         status := if CanTransition(s.status, final) then final else GivenBack(s.status, None, s.contenders[i].found))
    case Dies(i) => s.(contenders := At(s, i, Out))
    case Reaped => s.(live := None, status := if CanTransition(s.status, Partial) then Partial else s.status)
  }

  predicate Runs(s: Race, es: seq<Event>)
    decreases |es|
  {
    es == [] || (Enabled(s, es[0]) && Runs(Step(s, es[0]), es[1..]))
  }

  function After(s: Race, es: seq<Event>): Race
    requires Runs(s, es)
    decreases |es|
  {
    if es == [] then s else After(Step(s, es[0]), es[1..])
  }

  /** A campaign nobody is claiming. */
  predicate Quiet(s: Race) {
    s.live.None? && !s.sent && s.contenders == map[]
  }

  // -------------------------------------------------------------- one writer

  predicate Undecided(stage: Stage) {
    stage == Looked || stage.Read? || stage == Moved
  }

  /** Who writes owns the live run; who has yet to open one looked before any that opened since. */
  predicate ContenderOk(s: Race, i: Process)
    requires i in s.contenders
  {
    var c := s.contenders[i];
    && (c.stage == Writing ==> s.live == Some(Live(i, c.kind)))
    && (Undecided(c.stage) ==> c.seen <= s.begun && (s.live.Some? || s.sent ==> c.seen < s.begun))
    && (c.stage.Read? ==> CanTransition(c.stage.from, ClaimState(c.kind)))
  }

  predicate Inv(s: Race) {
    forall i :: i in s.contenders ==> ContenderOk(s, i)
  }

  lemma StepKeeps(s: Race, e: Event)
    requires Inv(s) && Enabled(s, e)
    ensures Inv(Step(s, e))
  {
    var s' := Step(s, e);
    forall i | i in s'.contenders
      ensures ContenderOk(s', i)
    {
      assert i in s.contenders ==> ContenderOk(s, i);
      if e.Submits? {
        assert ContenderOk(s, e.i);
      }
    }
  }

  lemma {:induction false} RunsKeep(s: Race, es: seq<Event>)
    requires Inv(s) && Runs(s, es)
    ensures Inv(After(s, es))
    decreases |es|
  {
    if es != [] {
      StepKeeps(s, es[0]);
      RunsKeep(Step(s, es[0]), es[1..]);
    }
  }

  /**
   * However many processes claim a campaign at once, and wherever each stands between its look, its
   * move and its row: at most one writes, and it is the one whose run the ledger shows as live.
   */
  lemma OneWriter(s: Race, es: seq<Event>, i: Process, j: Process)
    requires Quiet(s) && Runs(s, es)
    ensures var a := After(s, es);
            && (In(a, i, Writing) ==> a.live.Some? && a.live.value.owner == i)
            && (In(a, i, Writing) && In(a, j, Writing) ==> i == j)
  {
    RunsKeep(s, es);
    var a := After(s, es);
    assert i in a.contenders ==> ContenderOk(a, i);
    assert j in a.contenders ==> ContenderOk(a, j);
  }

  /**
   * A run that opens while Shopify still works on the campaign's last operation looked before another
   * run was opened: one whose look is still the last word never writes beside an operation.
   */
  lemma OnlyAStaleLookOverlaps(s: Race, es: seq<Event>, i: Process)
    requires Quiet(s) && Runs(s, es)
    ensures var a := After(s, es);
            In(a, i, Moved) && a.live.None? && a.sent ==> a.contenders[i].seen < a.begun
  {
    RunsKeep(s, es);
    var a := After(s, es);
    assert i in a.contenders ==> ContenderOk(a, i);
  }

  // ----------------------------------------------------- the state and the run

  /** While a run is live the campaign is shown in that run's own claim. */
  predicate Agrees(s: Race) {
    s.live.Some? ==> s.status == ClaimState(s.live.value.kind)
  }

  /** A process whose row becomes the live one finds the campaign in its own claim. */
  predicate UnderItsClaim(s: Race, e: Event)
    requires Enabled(s, e)
  {
    e.Opens? && s.live.None? ==> s.status == ClaimState(s.contenders[e.i].kind)
  }

  lemma StepAgreesExactly(s: Race, e: Event)
    requires Inv(s) && Agrees(s) && Enabled(s, e)
    ensures Agrees(Step(s, e)) <==> UnderItsClaim(s, e)
  {
    if e.Moves? {
      assert ContenderOk(s, e.i);
    }
  }

  predicate AllUnderTheirClaims(s: Race, es: seq<Event>)
    requires Runs(s, es)
    decreases |es|
  {
    es == [] || (UnderItsClaim(s, es[0]) && AllUnderTheirClaims(Step(s, es[0]), es[1..]))
  }

  predicate AgreesThroughout(s: Race, es: seq<Event>)
    requires Runs(s, es)
    decreases |es|
  {
    es == [] || (Agrees(Step(s, es[0])) && AgreesThroughout(Step(s, es[0]), es[1..]))
  }

  /**
   * Over every interleaving of claims: the state shown and the live run go the same way at every
   * moment exactly when each process that opens the live run finds the campaign in its own claim, which
   * the code never asks again once it has tried to move it.
   */
  lemma {:induction false} AgreesExactly(s: Race, es: seq<Event>)
    requires Inv(s) && Agrees(s) && Runs(s, es)
    ensures AgreesThroughout(s, es) <==> AllUnderTheirClaims(s, es)
    decreases |es|
  {
    if es != [] {
      StepAgreesExactly(s, es[0]);
      StepKeeps(s, es[0]);
      if UnderItsClaim(s, es[0]) {
        AgreesExactly(Step(s, es[0]), es[1..]);
      }
    }
  }

  // ------------------------------------------------------------- where it goes wrong

  lemma {:induction false} AppendIs(s0: Race, es: seq<Event>, e: Event)
    requires Runs(s0, es) && Enabled(After(s0, es), e)
    ensures Runs(s0, es + [e]) && After(s0, es + [e]) == Step(After(s0, es), e)
    decreases |es|
  {
    if es == [] {
      assert [e][1..] == [];
    } else {
      assert (es + [e])[1..] == es[1..] + [e];
      AppendIs(Step(s0, es[0]), es[1..], e);
    }
  }

  /** One more event. */
  lemma Then(s0: Race, es: seq<Event>, s: Race, e: Event) returns (es': seq<Event>, s': Race)
    requires Runs(s0, es) && s == After(s0, es) && Enabled(s, e)
    ensures es' == es + [e] && Runs(s0, es') && s' == After(s0, es') && s' == Step(s, e)
  {
    AppendIs(s0, es, e);
    es', s' := es + [e], Step(s, e);
  }

  /** One process alone, its operation submitted and waited for. */
  function Alone(i: Process, kind: Kind, clean: bool): seq<Event> {
    [Looks(i, kind), Reads(i), Moves(i), Opens(i), Submits(i), OpEnds, Finishes(i, clean)]
  }

  /** Alone, a process takes any quiet campaign its claim is legal for, and leaves it quiet where its run ends. */
  lemma AloneRunsThrough(s: Race, i: Process, kind: Kind, clean: bool)
    requires Quiet(s) && CanTransition(s.status, ClaimState(kind))
    ensures Runs(s, Alone(i, kind, clean))
    ensures var a := After(s, Alone(i, kind, clean));
            a.status == FinalState(kind, clean) && a.live.None? && !a.sent && a.begun == s.begun + 1 && In(a, i, Out)
  {
    var es, a := AloneClaims(s, i, kind);
    es, a := AloneWrites(s, es, a, i, kind);
    es, a := Then(s, es, a, Finishes(i, clean));
    assert es == Alone(i, kind, clean);
  }

  lemma AloneWrites(s: Race, es: seq<Event>, a: Race, i: Process, kind: Kind) returns (es': seq<Event>, a': Race)
    requires Runs(s, es) && a == After(s, es) && a.contenders.Keys == {i}
    requires a == Race(ClaimState(kind), None, false, s.begun, map[i := Contender(kind, s.status, Moved, s.begun)])
    ensures es' == es + [Opens(i), Submits(i), OpEnds] && Runs(s, es') && a' == After(s, es')
    ensures a' == Race(ClaimState(kind), Some(Live(i, kind)), false, s.begun + 1, map[i := Contender(kind, s.status, Writing, s.begun)])
  {
    es', a' := Then(s, es, a, Opens(i));
    es', a' := Then(s, es', a', Submits(i));
    es', a' := Then(s, es', a', OpEnds);
  }

  lemma AloneClaims(s: Race, i: Process, kind: Kind) returns (es: seq<Event>, a: Race)
    requires Quiet(s) && CanTransition(s.status, ClaimState(kind))
    ensures es == [Looks(i, kind), Reads(i), Moves(i)] && Runs(s, es) && a == After(s, es)
    ensures a == Race(ClaimState(kind), None, false, s.begun, map[i := Contender(kind, s.status, Moved, s.begun)])
  {
    es, a := Then(s, [], s, Looks(i, kind));
    es, a := Then(s, es, a, Reads(i));
    es, a := Then(s, es, a, Moves(i));
  }

  function QuietAt(status: CampaignState): (s: Race)
    ensures Quiet(s)
  {
    Race(status, None, false, 0, map[])
  }

  /** Both look at a Partial campaign and read its state before either moves it. */
  lemma BothRead(first: Kind, second: Kind) returns (es: seq<Event>, s: Race)
    ensures Runs(QuietAt(Partial), es) && s == After(QuietAt(Partial), es)
    ensures s == Race(Partial, None, false, 0, map[0 := Contender(first, Partial, Read(Partial), 0),
                                                   1 := Contender(second, Partial, Read(Partial), 0)])
  {
    var s0 := QuietAt(Partial);
    es, s := Then(s0, [], s0, Looks(0, first));
    es, s := Then(s0, es, s, Looks(1, second));
    es, s := Then(s0, es, s, Reads(0));
    es, s := Then(s0, es, s, Reads(1));
  }

  /**
   * An apply and a revert pressed at once on a Partial campaign: the revert moves it first, the
   * apply's own move fails unasked, and its row is first. The campaign shows Reverting while it is
   * being applied, and Partial once that apply has ended clean.
   */
  lemma CrossedClaims() returns (es: seq<Event>, ended: seq<Event>)
    ensures Runs(QuietAt(Partial), es) && var a := After(QuietAt(Partial), es);
            a.live == Some(Live(0, Apply)) && a.status == Reverting && In(a, 0, Writing)
    ensures Runs(QuietAt(Partial), ended) && var b := After(QuietAt(Partial), ended);
            b.live.None? && b.status == Partial && ended == es + [Opens(1)] + [Finishes(0, true)]
  {
    var s0 := QuietAt(Partial);
    var s;
    es, s := BothRead(Apply, Revert);
    es, s := Then(s0, es, s, Moves(1));
    es, s := Then(s0, es, s, Moves(0));
    es, s := Then(s0, es, s, Opens(0));
    ended, s := ApplyEnds(s0, es, s);
  }

  lemma ApplyEnds(s0: Race, es: seq<Event>, s: Race) returns (ended: seq<Event>, b: Race)
    requires Runs(s0, es) && s == After(s0, es) && s.status == Reverting && s.live == Some(Live(0, Apply)) && !s.sent
    requires In(s, 0, Writing) && s.contenders[0].kind == Apply && s.contenders[0].found == Partial && In(s, 1, Moved)
    ensures ended == es + [Opens(1)] + [Finishes(0, true)]
    ensures Runs(s0, ended) && b == After(s0, ended) && b.live.None? && b.status == Partial
  {
    AppendIs(s0, es, Opens(1));
    AppendIs(s0, es + [Opens(1)], Finishes(0, true));
    ended := es + [Opens(1)] + [Finishes(0, true)];
    b := After(s0, ended);
  }

  /**
   * Two applies pressed at once on a draft: while the first waits between its look and its claim, the
   * second submits its operation and dies, and is reclaimed. The first then opens a run beside it.
   */
  lemma StaleLook() returns (es: seq<Event>)
    ensures Runs(QuietAt(Draft), es) && var a := After(QuietAt(Draft), es);
            a.live == Some(Live(0, Apply)) && a.sent && In(a, 0, Writing) && a.status == Applying
  {
    var s0 := QuietAt(Draft);
    var s;
    es, s := SubmittedBehind();
    es, s := Then(s0, es, s, Dies(1));
    es, s := Then(s0, es, s, Reaped);
    es, s := Then(s0, es, s, Reads(0));
    es, s := Then(s0, es, s, Moves(0));
    es, s := Then(s0, es, s, Opens(0));
  }

  /** The second apply has submitted its operation; the first has looked, and done no more. */
  lemma SubmittedBehind() returns (es: seq<Event>, s: Race)
    ensures Runs(QuietAt(Draft), es) && s == After(QuietAt(Draft), es)
    ensures s == Race(Applying, Some(Live(1, Apply)), true, 1, map[0 := Contender(Apply, Draft, Looked, 0),
                                                                   1 := Contender(Apply, Draft, Writing, 0)])
  {
    var s0 := QuietAt(Draft);
    es, s := Then(s0, [], s0, Looks(0, Apply));
    es, s := Then(s0, es, s, Looks(1, Apply));
    es, s := Then(s0, es, s, Reads(1));
    es, s := Then(s0, es, s, Moves(1));
    es, s := Then(s0, es, s, Opens(1));
    es, s := Then(s0, es, s, Submits(1));
  }
}
