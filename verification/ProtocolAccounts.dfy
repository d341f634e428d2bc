/**
 * What the ledger accounts for. While every ledger is written whole, what a campaign still owes the
 * storefront is the outstanding rows of its latest run, unless it holds a claim nobody has planned.
 */
module ProtocolAccounts {
  import opened Wrappers
  import opened Lifecycle
  import opened Ledger
  import opened Protocol
  import opened ProtocolInvariant
  import opened ProtocolSteps
  import opened ProtocolTheorems
  import opened ProtocolRest

  /** Everything owed is an outstanding row. */
  predicate Rowed(run: Option<Run>, owed: set<Variant>) {
    forall v :: v in owed ==> run.Some? && v in run.value.rows && Outstanding(run.value.rows[v])
  }

  /** A claim state stands for the latest run, not for a claim left by a process that never planned. */
  predicate Planned(run: Option<Run>, status: CampaignState) {
    && (status == Applying ==> run.Some? && run.value.kind == Apply && run.value.status != RunFailed)
    && (status == Reverting ==> run.Some? && run.value.kind == Revert && run.value.status != RunFailed)
  }

  predicate Off(status: CampaignState) {
    status == Draft || status == Scheduled || status == Completed
  }

  /** A campaign that is off has no apply behind it that sent anything. */
  predicate OffRun(run: Option<Run>) {
    run.None? || run.value.status == RunFailed || run.value.kind == Revert
  }

  predicate IdleAccounts(k: Camp) {
    k.process.None? ==>
      && (Planned(k.run, k.status) ==> Rowed(k.run, k.owed))
      && (Off(k.status) ==> k.owed == {} && OffRun(k.run))
  }

  predicate BusyAccounts(k: Camp) {
    k.process.Some? ==>
      var pr := k.process.value;
      && CanTransition(pr.before.status, ClaimState(pr.kind))
      && (pr.before.prices ==> PricingState(pr.before.status))
      && (Off(pr.before.status) ==> pr.before.owed == {})
      && (pr.phase == Claimed ==>
            (Planned(k.run, pr.before.status) ==> Rowed(k.run, pr.before.owed))
            && (Off(pr.before.status) ==> OffRun(k.run)))
      && (pr.phase != Claimed ==> Rowed(k.run, k.owed))
  }

  predicate Accounts(k: Camp) {
    IdleAccounts(k) && BusyAccounts(k)
  }

  ghost predicate AllAccount(s: State) {
    forall c: nat :: c < |s.camps| ==> Accounts(s.camps[c])
  }

  /** The ledger is written whole, and a failed final move leaves the campaign pricing what its run did. */
  predicate Unbroken(w: World, s: State, e: Event)
    requires Enabled(w, s, e)
  {
    && (e.Open? ==> Plan(w, s, e.c).Keys <= e.ledgered)
    && (e.LoseClose? ==> Prices(DoLoseClose(w, s, e.c).camps[e.c]) == Prices(s.camps[e.c]))
  }

  // ---------------------------------------------------------------- the steps

  lemma ClaimAccounts(w: World, s: State, c: nat, kind: Kind, resume: bool)
    requires Shaped(w, s) && CanClaim(s, c, kind) && Accounts(s.camps[c])
    ensures Accounts(DoClaim(w, s, c, kind, resume).camps[c])
  {
  }

  lemma OpenAccounts(w: World, s: State, c: nat, ledgered: set<Variant>)
    requires CanOpen(w, s, c) && Accounts(s.camps[c]) && Plan(w, s, c).Keys <= ledgered
    ensures Accounts(DoOpen(w, s, c, ledgered).camps[c])
  {
  }

  lemma NoteAccounts(s: State, c: nat)
    requires CanNote(s, c) && Accounts(s.camps[c])
    ensures Accounts(DoNoteSubmitted(s, c).camps[c])
  {
  }

  lemma RecordAccounts(s: State, c: nat, v: Variant)
    requires CanRecord(s, c, v) && Accounts(s.camps[c])
    ensures Accounts(DoRecordRow(s, c, v).camps[c])
  {
  }

  lemma CloseAccounts(w: World, s: State, c: nat)
    requires Shaped(w, s) && CanClose(s, c) && Accounts(s.camps[c]) && RunOk(w, s, c) && ProcessOk(w, s, c)
    ensures Accounts(DoClose(s, c).camps[c])
  {
  }

  lemma ReleaseAccounts(w: World, s: State, c: nat)
    requires CanRelease(w, s, c) && Accounts(s.camps[c]) && ProcessOk(w, s, c)
    ensures Accounts(DoRelease(w, s, c).camps[c])
  {
    var k := s.camps[c];
    if At(k, Claimed) {
      assert ClaimOk(k);
    }
  }

  lemma LoseCloseAccounts(w: World, s: State, c: nat)
    requires Shaped(w, s) && CanClose(s, c) && Accounts(s.camps[c]) && ProcessOk(w, s, c)
    requires Prices(DoLoseClose(w, s, c).camps[c]) == Prices(s.camps[c])
    ensures Accounts(DoLoseClose(w, s, c).camps[c])
  {
  }

  lemma StopAccounts(w: World, s: State, c: nat)
    requires Shaped(w, s) && CanStop(s, c) && Accounts(s.camps[c]) && RunOk(w, s, c)
    ensures Accounts(DoStop(s, c).camps[c])
  {
    var k := s.camps[c];
    assert Rowed(k.run, k.owed);
  }

  /** A claim left by a dead process: one that goes the way of the latest run changed nothing. */
  lemma DieAccounts(w: World, s: State, c: nat)
    requires Shaped(w, s) && c < |s.camps| && s.camps[c].process.Some? && Accounts(s.camps[c]) && ProcessOk(w, s, c)
    ensures Accounts(s.camps[c].(process := None))
  {
    var k := s.camps[c];
    if At(k, Claimed) {
      assert ClaimOk(k);
    }
  }

  lemma SettleOpAccounts(w: World, s: State, c: nat, reported: set<Variant>, mirrored: bool)
    requires Shaped(w, s) && CanSettleOp(s, c, reported) && Accounts(s.camps[c])
    ensures Accounts(DoSettleOp(s, c, reported, mirrored).camps[c])
  {
  }

  /** Steps that move neither a row's state nor what is owed. */
  lemma MidRunAccounts(w: World, s: State, e: Event)
    requires Shaped(w, s) && Enabled(w, s, e) && Actor(e).Some? && e.c < |s.camps|
    requires e.Write? || e.Refuse? || e.ReadBack? || e.Submit? || e.Collect? || e.SettleMirror? || e.FinishRun?
    requires Accounts(s.camps[e.c])
    ensures Accounts(Step(w, s, e).camps[e.c])
  {
  }

  lemma StartAccounts(w: World, s: State, e: Event)
    requires Shaped(w, s) && Enabled(w, s, e) && Unbroken(w, s, e)
    requires e.Claim? || e.Open? || e.NoteSubmitted? || e.RecordRow? || e.Die?
    requires Accounts(s.camps[e.c]) && ProcessOk(w, s, e.c)
    ensures Accounts(Step(w, s, e).camps[e.c])
  {
    match e
    case Claim(c, kind, resume) => ClaimAccounts(w, s, c, kind, resume);
    case Open(c, ledgered) => OpenAccounts(w, s, c, ledgered);
    case NoteSubmitted(c) => NoteAccounts(s, c);
    case RecordRow(c, v) => RecordAccounts(s, c, v);
    case Die(c) => DieAccounts(w, s, c);
  }

  lemma EndAccounts(w: World, s: State, e: Event)
    requires Shaped(w, s) && Enabled(w, s, e) && Unbroken(w, s, e)
    requires e.Close? || e.Release? || e.LoseClose? || e.StopWriting? || e.Reap? || e.SettleOp?
    requires Accounts(s.camps[e.c]) && RunOk(w, s, e.c) && ProcessOk(w, s, e.c)
    ensures Accounts(Step(w, s, e).camps[e.c])
  {
    match e
    case Close(c) => CloseAccounts(w, s, c);
    case Release(c) => ReleaseAccounts(w, s, c);
    case LoseClose(c) => LoseCloseAccounts(w, s, c);
    case StopWriting(c) => StopAccounts(w, s, c);
    case Reap(c) => StopAccounts(w, s, c);
    case SettleOp(c, reported, mirrored) => SettleOpAccounts(w, s, c, reported, mirrored);
  }

  lemma ActorAccounts(w: World, s: State, e: Event)
    requires Shaped(w, s) && Enabled(w, s, e) && Unbroken(w, s, e) && Actor(e).Some? && e.c < |s.camps|
    requires Accounts(s.camps[e.c]) && RunOk(w, s, e.c) && ProcessOk(w, s, e.c)
    ensures Accounts(Step(w, s, e).camps[e.c])
  {
    if e.Claim? || e.Open? || e.NoteSubmitted? || e.RecordRow? || e.Die? {
      StartAccounts(w, s, e);
    } else if e.Close? || e.Release? || e.LoseClose? || e.StopWriting? || e.Reap? || e.SettleOp? {
      EndAccounts(w, s, e);
    } else {
      MidRunAccounts(w, s, e);
    }
  }

  lemma CampAccounts(w: World, s: State, e: Event, c: nat)
    requires Shaped(w, s) && Enabled(w, s, e) && Unbroken(w, s, e) && c < |s.camps|
    requires Accounts(s.camps[c]) && RunOk(w, s, c) && ProcessOk(w, s, c)
    ensures c < |Step(w, s, e).camps| && Accounts(Step(w, s, e).camps[c])
  {
    if Actor(e) != Some(c) {
      OthersStay(w, s, e, c);
    } else {
      ActorAccounts(w, s, e);
    }
  }

  lemma StepAccounts(w: World, s: State, e: Event)
    requires Inv(w, s) && AllAccount(s) && Enabled(w, s, e) && Unbroken(w, s, e)
    ensures AllAccount(Step(w, s, e))
  {
    var s' := Step(w, s, e);
    forall c: nat | c < |s'.camps|
      ensures Accounts(s'.camps[c])
    {
      assert Accounts(s.camps[c]) && CampOk(w, s, c);
      CampAccounts(w, s, e, c);
    }
  }

  // ---------------------------------------------------------------- over runs

  /** Every ledger of the run was written whole. */
  predicate Whole(w: World, s: State, es: seq<Event>)
    requires Runs(w, s, es)
    decreases |es|
  {
    es == [] || (Unbroken(w, s, es[0]) && Whole(w, Step(w, s, es[0]), es[1..]))
  }

  lemma {:induction false} WholeRunsAccount(w: World, s: State, es: seq<Event>)
    requires Inv(w, s) && AllAccount(s) && ClearRuns(w, s, es) && Runs(w, s, es) && Whole(w, s, es)
    ensures AllAccount(After(w, s, es))
    decreases |es|
  {
    if es != [] {
      StepKeeps(w, s, es[0]);
      StepAccounts(w, s, es[0]);
      WholeRunsAccount(w, Step(w, s, es[0]), es[1..]);
    }
  }

  /**
   * Campaign `k` has nothing outstanding on `v`: it holds no claim that waits to be planned, and its
   * latest run has no outstanding row for `v`, or was given back to a campaign that is off.
   */
  predicate NothingLeft(k: Camp, v: Variant) {
    && !At(k, Claimed)
    && (k.process.None? ==> Planned(k.run, k.status))
    && ((k.process.None? && Off(k.status))
        || !(k.run.Some? && v in k.run.value.rows && Outstanding(k.run.value.rows[v])))
  }

  lemma NothingLeftOwesNothing(k: Camp, v: Variant)
    requires Accounts(k) && NothingLeft(k, v)
    ensures v !in k.owed
  {
  }

  // ------------------------------------------------------------ and exactly then

  /** Campaign `c` has planned, its process was killed writing the ledger, and the run was reclaimed. */
  function CutOpening(w: World, s: State, c: nat, ledgered: set<Variant>): State
    requires CanOpen(w, s, c) && !(Plan(w, s, c).Keys <= ledgered)
  {
    DoStop(DoOpen(w, s, c, ledgered), c)
  }

  /** No other campaign has anything outstanding on `v`. */
  predicate OthersDone(w: World, s: State, c: nat, v: Variant)
    requires Shaped(w, s)
  {
    forall d: nat :: d < |s.camps| && d != c && v in w.defs[d].scope ==> NothingLeft(s.camps[d], v)
  }

  lemma CutOpeningIs(w: World, s: State, c: nat, ledgered: set<Variant>)
    requires CanOpen(w, s, c) && !(Plan(w, s, c).Keys <= ledgered) && RunOk(w, s, c) && ProcessOk(w, s, c)
    ensures var a := CutOpening(w, s, c, ledgered);
            && Shaped(w, a) && a.live == s.live
            && (forall d: nat :: d < |s.camps| && d != c ==> a.camps[d] == s.camps[d])
            && Pricing(a) == With(Pricing(s), c, s.camps[c].process.value.kind == Apply)
            && a.camps[c].process.None? && a.camps[c].status == Partial && a.camps[c].run.Some?
            && a.camps[c].run.value.rows.Keys == Plan(w, s, c).Keys * ledgered
            && forall v :: v in a.camps[c].run.value.rows ==> Outstanding(a.camps[c].run.value.rows[v])
  {
    CutRunIs(w, s, c, ledgered);
    var a := CutOpening(w, s, c, ledgered);
    var p := With(Pricing(s), c, s.camps[c].process.value.kind == Apply);
    forall d: nat
      ensures d in Pricing(a) <==> d in p
    {
    }
  }

  lemma CutRunIs(w: World, s: State, c: nat, ledgered: set<Variant>)
    requires CanOpen(w, s, c) && !(Plan(w, s, c).Keys <= ledgered)
    ensures var k := CutOpening(w, s, c, ledgered).camps[c];
            && k.process.None? && k.status == Partial && k.run.Some?
            && k.run.value.kind == s.camps[c].process.value.kind
            && k.run.value.rows.Keys == Plan(w, s, c).Keys * ledgered
            && forall v :: v in k.run.value.rows ==> Outstanding(k.run.value.rows[v])
  {
    var k1 := DoOpen(w, s, c, ledgered).camps[c];
    assert k1.run.value.rows.Keys == Plan(w, s, c).Keys * ledgered;
  }

  /** The plan of a claim, opened whole, leaves every variant it does not plan at its price. */
  lemma UnplannedShows(w: World, s: State, c: nat, v: Variant)
    requires Inv(w, s) && AllAccount(s) && CanOpen(w, s, c) && v in w.defs[c].scope
    requires v !in Plan(w, s, c) && OthersDone(w, s, c, v)
    ensures Shows(w, s, With(Pricing(s), c, s.camps[c].process.value.kind == Apply), v)
  {
    var whole := Plan(w, s, c).Keys;
    var s1 := DoOpen(w, s, c, whole);
    assert CampOk(w, s, c);
    NotDirty(w, s, c, v);
    OpenShows(w, s, c, whole, v);
    assert s1.camps[c].owed <= whole;
    forall d: nat | d < |s1.camps|
      ensures v !in s1.camps[d].owed
    {
      if d != c {
        assert CampOk(w, s, d) && Accounts(s.camps[d]);
        if v in w.defs[d].scope {
          NothingLeftOwesNothing(s.camps[d], v);
        }
      }
    }
    assert PriceOk(w, s1, v);
    assert Pricing(s1) == With(Pricing(s), c, s.camps[c].process.value.kind == Apply);
  }

  /**
   * A ledger cut by a kill keeps the promise exactly when every variant it misses already shows the
   * price it was planned for: otherwise a variant with no outstanding row anywhere is wrong.
   */
  lemma CutLedgerExactly(w: World, s: State, c: nat, ledgered: set<Variant>)
    requires Inv(w, s) && AllAccount(s) && CanOpen(w, s, c) && !(Plan(w, s, c).Keys <= ledgered)
    ensures var a := CutOpening(w, s, c, ledgered);
            Shaped(w, a) &&
            ((forall v :: v in w.defs[c].scope && NothingLeft(a.camps[c], v) && OthersDone(w, a, c, v) ==> Shows(w, a, Pricing(a), v))
             <==> (forall v :: v in Plan(w, s, c) && v !in ledgered && v in s.live && OthersDone(w, s, c, v) ==>
                     s.live[v] == Plan(w, s, c)[v].intended))
  {
    var a := CutOpening(w, s, c, ledgered);
    assert CampOk(w, s, c);
    CutOpeningIs(w, s, c, ledgered);
    forall v | v in w.defs[c].scope
      ensures NothingLeft(a.camps[c], v) && OthersDone(w, a, c, v) <==> v !in Plan(w, s, c).Keys * ledgered && OthersDone(w, s, c, v)
      ensures v !in Plan(w, s, c) && OthersDone(w, s, c, v) ==> Shows(w, a, Pricing(a), v)
      ensures v in Plan(w, s, c) ==>
                (Shows(w, a, Pricing(a), v) <==> (v in s.live ==> s.live[v] == Plan(w, s, c)[v].intended))
    {
      CutLedgerAt(w, s, c, ledgered, v);
    }
    assert Plan(w, s, c).Keys <= w.defs[c].scope;
  }

  /** One variant of a cut ledger: unplanned, in the ledger, or missed by it. */
  lemma CutLedgerAt(w: World, s: State, c: nat, ledgered: set<Variant>, v: Variant)
    requires Inv(w, s) && AllAccount(s) && CanOpen(w, s, c) && !(Plan(w, s, c).Keys <= ledgered) && v in w.defs[c].scope
    ensures var a := CutOpening(w, s, c, ledgered);
            && Shaped(w, a)
            && (NothingLeft(a.camps[c], v) && OthersDone(w, a, c, v) <==> v !in Plan(w, s, c).Keys * ledgered && OthersDone(w, s, c, v))
            && (v !in Plan(w, s, c) && OthersDone(w, s, c, v) ==> Shows(w, a, Pricing(a), v))
            && (v in Plan(w, s, c) ==>
                  (Shows(w, a, Pricing(a), v) <==> (v in s.live ==> s.live[v] == Plan(w, s, c)[v].intended)))
  {
    assert CampOk(w, s, c);
    CutOpeningIs(w, s, c, ledgered);
    if v !in Plan(w, s, c) && OthersDone(w, s, c, v) {
      UnplannedShows(w, s, c, v);
    }
  }
}
