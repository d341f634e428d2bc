/** A run nothing interrupts: every row sent, read back and recorded, and the campaign closed. */
module ProtocolWholeRuns {
  import opened Wrappers
  import opened Lifecycle
  import opened Ledger
  import opened Protocol
  import opened ProtocolAnswers

  // ------------------------------------------------------- from plan to close

  /** Every row sent and read back, or its variant found gone; then recorded, and the campaign closed. */
  function WholeRun(live: set<Variant>, c: nat, vs: seq<Variant>): seq<Event> {
    AnsweredRun(live, c, vs, map[])
  }

  /** What a whole run leaves: every row landed or its variant gone, the campaign shown as its kind ends. */
  ghost predicate RanWhole(s: State, a: State, c: nat)
    requires ReadyToSend(s, c)
  {
    var rows := RowsOf(s, c);
    && a.live == LiveWith(s.live, rows, rows.Keys, map[]) && a.ops == s.ops
    && Ended(s, a, c, HeardOf(s.live, rows, rows.Keys, map[]))
  }

  /** From its plan to its close: a run nothing interrupts puts every price it planned, and is shown so. */
  lemma RunsWhole(w: World, s: State, c: nat)
    requires Shaped(w, s) && ReadyToSend(s, c)
    ensures var es := WholeRun(s.live.Keys, c, Listed(RowsOf(s, c).Keys));
            Runs(w, s, es) && RanWhole(s, After(w, s, es), c)
  {
    RunsAsAnswered(w, s, c, map[]);
  }

  // ------------------------------------------------------ from claim to close

  function ClaimAndOpen(w: World, c: nat, kind: Kind, resume: bool): seq<Event>
    requires c < |w.defs|
  {
    [Claim(c, kind, resume), Open(c, w.defs[c].scope)]
  }

  /** A claim and its plan, opened over the whole scope. */
  function Opens(w: World, s: State, c: nat, kind: Kind, resume: bool): State
    requires Shaped(w, s) && CanClaim(s, c, kind) && !Stopped(w, DoClaim(w, s, c, kind, resume), c)
  {
    DoOpen(w, DoClaim(w, s, c, kind, resume), c, w.defs[c].scope)
  }

  lemma OpensRuns(w: World, s: State, c: nat, kind: Kind, resume: bool)
    requires Shaped(w, s) && CanClaim(s, c, kind) && !Stopped(w, DoClaim(w, s, c, kind, resume), c)
    ensures Runs(w, s, ClaimAndOpen(w, c, kind, resume))
    ensures After(w, s, ClaimAndOpen(w, c, kind, resume)) == Opens(w, s, c, kind, resume)
    ensures var s' := Opens(w, s, c, kind, resume);
            && Shaped(w, s') && s'.live == s.live && s'.mirror == s.mirror && s'.ops == s.ops
            && (forall d: nat :: d < |s.camps| && d != c ==> s'.camps[d] == s.camps[d])
            && At(s'.camps[c], Opened) && LiveRun(s'.camps[c]) && s'.camps[c].process.value.op.None?
            && s'.camps[c].process.value.kind == kind && s'.camps[c].process.value.heard == map[]
            && s'.camps[c].run.value.kind == kind && s'.camps[c].run.value.op.None?
            && s'.camps[c].run.value.rows == Plan(w, DoClaim(w, s, c, kind, resume), c)
            && s'.camps[c].status == ClaimState(kind)
  {
    var s1 := DoClaim(w, s, c, kind, resume);
    var plan := Plan(w, s1, c);
    assert plan.Keys <= w.defs[c].scope;
    assert (map v | v in plan && v in w.defs[c].scope :: plan[v]) == plan;
    RunsPair(w, s, Claim(c, kind, resume), Open(c, w.defs[c].scope));
  }

  /** The mirror is right wherever it knows a variant `c` covers. */
  predicate MirrorRight(w: World, s: State, c: nat)
    requires c < |w.defs|
  {
    forall v :: v in w.defs[c].scope && v in s.mirror && v in s.live ==> s.mirror[v] == s.live[v]
  }

  /** No blocking policy stops a run of this kind. */
  predicate NothingBlocks(w: World, s: State, c: nat, kind: Kind)
    requires c < |w.defs|
  {
    forall v :: v in w.defs[c].scope ==> !Target(w, With(Pricing(s), c, kind == Apply), v).Blocks?
  }

  /** What a run of this kind has to write. */
  function ToWrite(w: World, s: State, c: nat, kind: Kind): set<Variant>
    requires c < |w.defs|
  {
    set v | v in w.defs[c].scope && Wanted(w, With(Pricing(s), c, kind == Apply), s.mirror, v)
  }

  /** A run nothing interrupts, from its claim to its close. */
  ghost function CleanRunOf(w: World, s: State, c: nat, kind: Kind): seq<Event>
    requires c < |w.defs|
  {
    ClaimAndOpen(w, c, kind, false) + WholeRun(s.live.Keys, c, Listed(ToWrite(w, s, c, kind)))
  }

  /** `c` ended clean and is shown so, nobody else moved, and each variant it covers shows its price if resolution gives one. */
  ghost predicate RanCleanly(w: World, s: State, a: State, c: nat, kind: Kind)
    requires c < |w.defs| && c < |s.camps|
  {
    var p := With(Pricing(s), c, kind == Apply);
    && |a.camps| == |s.camps| && (forall d: nat :: d < |s.camps| && d != c ==> a.camps[d] == s.camps[d])
    && a.ops == s.ops && Pricing(a) == p
    && a.live == (map v | v in s.live :: if v in w.defs[c].scope && Target(w, p, v).Priced? then Target(w, p, v).price else s.live[v])
    && (forall v :: v in s.live && (v in s.mirror ==> s.mirror[v] == s.live[v]) && v in a.mirror ==> a.mirror[v] == a.live[v])
    && a.camps[c].process.None? && a.camps[c].status == FinalState(kind, true) && !Sent(a.camps[c])
    && a.camps[c].run.Some? && a.camps[c].run.value.kind == kind && a.camps[c].run.value.status == RunCompleted
  }

  /** Opened over its whole plan, the run has just what it has to write. */
  lemma OpensReady(w: World, s: State, c: nat, kind: Kind)
    requires Shaped(w, s) && CanClaim(s, c, kind) && NothingBlocks(w, s, c, kind)
    ensures !Stopped(w, DoClaim(w, s, c, kind, false), c)
    ensures var s' := Opens(w, s, c, kind, false);
            && Shaped(w, s') && ReadyToSend(s', c) && s'.live == s.live && s'.mirror == s.mirror && s'.ops == s.ops
            && (forall d: nat :: d < |s.camps| && d != c ==> s'.camps[d] == s.camps[d])
            && s'.camps[c].process.value.kind == kind && s'.camps[c].run.value.kind == kind
            && RowsOf(s', c).Keys == ToWrite(w, s, c, kind)
            && forall v :: v in RowsOf(s', c) ==> RowsOf(s', c)[v].intended == Target(w, With(Pricing(s), c, kind == Apply), v).price
  {
    var s1 := DoClaim(w, s, c, kind, false);
    assert With(Pricing(s1), c, kind == Apply) == With(Pricing(s), c, kind == Apply);
    OpensRuns(w, s, c, kind, false);
  }

  lemma WholeRunIsClean(w: World, s: State, s1: State, a: State, c: nat, kind: Kind)
    requires Shaped(w, s) && c < |s.camps| && ReadyToSend(s1, c) && RanWhole(s1, a, c) && MirrorRight(w, s, c)
    requires s1.live == s.live && s1.mirror == s.mirror && s1.ops == s.ops && |s1.camps| == |s.camps|
    requires forall d: nat :: d < |s.camps| && d != c ==> s1.camps[d] == s.camps[d]
    requires s1.camps[c].process.value.kind == kind && s1.camps[c].run.value.kind == kind
    requires RowsOf(s1, c).Keys == ToWrite(w, s, c, kind)
    requires forall v :: v in RowsOf(s1, c) ==> RowsOf(s1, c)[v].intended == Target(w, With(Pricing(s), c, kind == Apply), v).price
    ensures RanCleanly(w, s, a, c, kind)
  {
    WholeRunLive(w, s, RowsOf(s1, c), c, kind);
    WholeRunPricing(s, a, c, kind);
    var heard := HeardOf(s1.live, RowsOf(s1, c), RowsOf(s1, c).Keys, map[]);
    assert AllFinal(heard);
    NothingIsSent(RowsOf(s1, c), heard, a.camps[c]);
    MirrorStaysRight(w, s, s1, a, c, kind);
  }

  lemma NothingIsSent(rows: map<Variant, Row>, heard: map<Variant, Heard>, k: Camp)
    requires k.run.Some? && rows.Keys == heard.Keys && LedgerSays(rows, k.run.value.rows, heard)
    ensures !Sent(k)
  {
    forall v | v in k.run.value.rows
      ensures k.run.value.rows[v].status != Writing
    {
      assert RowSays(rows[v], k.run.value.rows[v], heard[v]);
    }
  }

  lemma MirrorStaysRight(w: World, s: State, s1: State, a: State, c: nat, kind: Kind)
    requires Shaped(w, s) && c < |s.camps| && ReadyToSend(s1, c) && RanWhole(s1, a, c) && s1.live == s.live && s1.mirror == s.mirror
    ensures forall v :: v in s.live && (v in s.mirror ==> s.mirror[v] == s.live[v]) && v in a.mirror ==> a.mirror[v] == a.live[v]
  {
    var rows := RowsOf(s1, c);
    var heard := HeardOf(s1.live, rows, rows.Keys, map[]);
    forall v | v in s.live && (v in s.mirror ==> s.mirror[v] == s.live[v]) && v in a.mirror
      ensures a.mirror[v] == a.live[v]
    {
      if v in rows {
        assert MirrorSays(s1.mirror, a.mirror, v, rows[v], heard[v]);
      }
    }
  }

  /** Writing what a run has to write puts every price resolution gives. */
  lemma WholeRunLive(w: World, s: State, rows: map<Variant, Row>, c: nat, kind: Kind)
    requires Shaped(w, s) && c < |s.camps| && MirrorRight(w, s, c) && rows.Keys == ToWrite(w, s, c, kind)
    requires forall v :: v in rows ==> rows[v].intended == Target(w, With(Pricing(s), c, kind == Apply), v).price
    ensures var p := With(Pricing(s), c, kind == Apply);
            LiveWith(s.live, rows, rows.Keys, map[])
            == map v | v in s.live :: if v in w.defs[c].scope && Target(w, p, v).Priced? then Target(w, p, v).price else s.live[v]
  {
  }

  lemma WholeRunPricing(s: State, a: State, c: nat, kind: Kind)
    requires |a.camps| == |s.camps| && c < |s.camps| && forall d: nat :: d < |s.camps| && d != c ==> a.camps[d] == s.camps[d]
    requires a.camps[c].status == FinalState(kind, true) && a.camps[c].run.Some? && a.camps[c].run.value.kind == kind
    ensures Pricing(a) == With(Pricing(s), c, kind == Apply)
  {
  }

  /** A run nothing interrupts ends clean, with every price resolution gives. */
  lemma RunsCleanly(w: World, s: State, c: nat, kind: Kind)
    requires Shaped(w, s) && CanClaim(s, c, kind) && NothingBlocks(w, s, c, kind) && MirrorRight(w, s, c)
    ensures Runs(w, s, CleanRunOf(w, s, c, kind)) && RanCleanly(w, s, After(w, s, CleanRunOf(w, s, c, kind)), c, kind)
  {
    OpensReady(w, s, c, kind);
    OpensRuns(w, s, c, kind, false);
    var s1 := Opens(w, s, c, kind, false);
    RunsWhole(w, s1, c);
    var whole := WholeRun(s1.live.Keys, c, Listed(RowsOf(s1, c).Keys));
    WholeRunIsClean(w, s, s1, After(w, s1, whole), c, kind);
    AfterConcat(w, s, ClaimAndOpen(w, c, kind, false), whole);
  }
}
