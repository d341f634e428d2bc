/** The engine's promises, for every run of the protocol from a storefront nobody has priced yet. */
module ProtocolPromises {
  import opened Wrappers
  import opened Ranking
  import opened Lifecycle
  import opened Ledger
  import opened Protocol
  import opened ProtocolInvariant
  import opened ProtocolFrame
  import opened ProtocolTheorems
  import opened ProtocolRest
  import opened ProtocolAccounts

  // ------------------------------------------------------------- reachability

  /** `es` is a run of the protocol from a fresh storefront, every claim taken when clear. */
  predicate Reaches(w: World, s0: State, es: seq<Event>) {
    Fresh(w, s0) && ClearRuns(w, s0, es)
  }

  lemma {:induction false} RunsRest(w: World, s: State, es: seq<Event>)
    requires Inv(w, s) && Rests(s) && ClearRuns(w, s, es)
    ensures Runs(w, s, es) && Inv(w, After(w, s, es)) && Rests(After(w, s, es))
    ensures AllShown(s) && (forall e :: e in es ==> !e.LoseClose?) ==> AllShown(After(w, s, es))
    decreases |es|
  {
    if es != [] {
      StepKeeps(w, s, es[0]);
      StepRest(w, s, es[0]);
      if AllShown(s) && forall e :: e in es ==> !e.LoseClose? {
        assert es[0] in es;
        StepShown(w, s, es[0]);
      }
      RunsRest(w, Step(w, s, es[0]), es[1..]);
    }
  }

  lemma Reached(w: World, s0: State, es: seq<Event>)
    requires Reaches(w, s0, es)
    ensures Runs(w, s0, es) && Inv(w, After(w, s0, es)) && Rests(After(w, s0, es))
    ensures (forall e :: e in es ==> !e.LoseClose?) ==> AllShown(After(w, s0, es))
  {
    FreshOk(w, s0);
    forall c: nat | c < |s0.camps|
      ensures Rest(s0, c) && Shown(s0.camps[c])
    {
      assert s0.camps[c] in s0.camps;
    }
    RunsRest(w, s0, es);
  }

  // -------------------------------------------------------- one price, no stack

  /** The winner outranks or ties every other campaign pricing the variant. */
  lemma {:induction false} WinnerTops(w: World, p: set<nat>, v: Variant, n: nat, c: nat)
    requires n <= |w.defs| && c < n && Covers(w, p, c, v)
    ensures Winner(w, p, v, n).Some?
    ensures Compare(w.defs[Winner(w, p, v, n).value].rank, w.defs[c].rank) >= 0
  {
    var best := Winner(w, p, v, n - 1);
    if c < n - 1 {
      WinnerTops(w, p, v, n - 1, c);
      CompareIsTotalOrder(w.defs[n - 1].rank, w.defs[best.value].rank, w.defs[c].rank);
      CompareIsTotalOrder(w.defs[best.value].rank, w.defs[c].rank, w.defs[n - 1].rank);
    } else {
      CompareIsTotalOrder(w.defs[c].rank, w.defs[c].rank, w.defs[c].rank);
      if best.Some? {
        CompareIsTotalOrder(w.defs[c].rank, w.defs[best.value].rank, w.defs[c].rank);
      }
    }
  }

  /**
   * The campaign that prices a variant has the highest priority of those covering it; among those of
   * that priority the latest start; among those the largest id. What it offers is what the variant should show.
   */
  lemma WinnerIsElected(w: World, p: set<nat>, v: Variant, c: nat)
    requires Covers(w, p, c, v)
    ensures var winner := Winner(w, p, v, |w.defs|);
            winner.Some? && Covers(w, p, winner.value, v) && Yields(w.defs[c].rank, w.defs[winner.value].rank)
            && var offer := w.defs[winner.value].offer;
            && (v in w.baseline && v in offer ==> Target(w, p, v) == offer[v])
            && (v in w.baseline && v !in offer ==> Target(w, p, v).Skips?)
  {
    WinnerTops(w, p, v, |w.defs|, c);
    ComparesKeyByKey(w.defs[Winner(w, p, v, |w.defs|).value].rank, w.defs[c].rank);
  }

  /**
   * Campaign `k` has nothing left to do on `v`: it never ran, its last run ended clean and it is
   * shown so, or it is shown Partial and its last run settled this very row.
   */
  predicate Decided(k: Camp, v: Variant) {
    AtRest(k) ||
    (k.process.None? && k.status == Partial && k.run.Some? && k.run.value.status == RunPartial
     && v in k.run.value.rows && Settled(k.run.value.rows[v].status))
  }

  predicate DecidedByAll(w: World, s: State, v: Variant)
    requires Shaped(w, s)
  {
    forall c: nat :: c < |s.camps| && v in w.defs[c].scope ==> Decided(s.camps[c], v)
  }

  lemma DecidedOwesNothing(w: World, s: State, v: Variant)
    requires Inv(w, s) && Rests(s) && DecidedByAll(w, s, v)
    ensures forall c: nat :: c < |s.camps| ==> v !in s.camps[c].owed
  {
    forall c: nat | c < |s.camps|
      ensures v !in s.camps[c].owed
    {
      assert CampOk(w, s, c) && Rest(s, c);
    }
  }

  lemma ReachedAccounts(w: World, s0: State, es: seq<Event>)
    requires Reaches(w, s0, es) && Runs(w, s0, es) && Whole(w, s0, es)
    ensures AllAccount(After(w, s0, es))
  {
    FreshOk(w, s0);
    forall c: nat | c < |s0.camps|
      ensures Accounts(s0.camps[c])
    {
      assert s0.camps[c] in s0.camps;
    }
    WholeRunsAccount(w, s0, es);
  }

  /**
   * `v` is outstanding in no campaign's latest run: nothing is left of it there, every ledger having
   * been written whole, or whatever became of ledgers the campaign ended clean or settled this row.
   */
  predicate NotOutstanding(w: World, s0: State, es: seq<Event>, v: Variant)
    requires Runs(w, s0, es) && Shaped(w, After(w, s0, es))
  {
    var s := After(w, s0, es);
    forall c: nat :: c < |s.camps| && v in w.defs[c].scope ==>
      (NothingLeft(s.camps[c], v) && Whole(w, s0, es)) || Decided(s.camps[c], v)
  }

  lemma NobodyOwes(w: World, s0: State, es: seq<Event>, v: Variant)
    requires Reaches(w, s0, es) && Runs(w, s0, es) && Shaped(w, After(w, s0, es)) && NotOutstanding(w, s0, es, v)
    ensures forall c: nat :: c < |After(w, s0, es).camps| ==> v !in After(w, s0, es).camps[c].owed
  {
    Reached(w, s0, es);
    var s := After(w, s0, es);
    if Whole(w, s0, es) {
      ReachedAccounts(w, s0, es);
    }
    forall c: nat | c < |s.camps|
      ensures v !in s.camps[c].owed
    {
      assert CampOk(w, s, c) && Rest(s, c);
      if v in w.defs[c].scope && NothingLeft(s.camps[c], v) && Whole(w, s0, es) {
        NothingLeftOwesNothing(s.camps[c], v);
      }
    }
  }

  /**
   * Whatever applies, cuts, kills, resumes, reverts and bulk operations led here: a variant not
   * outstanding in any campaign's latest run shows exactly the price of the highest-ranked campaign
   * pricing it, computed from its baseline, or the baseline itself when none does.
   */
  lemma OnePrice(w: World, s0: State, es: seq<Event>, v: Variant)
    requires Reaches(w, s0, es)
    ensures Runs(w, s0, es) && Shaped(w, After(w, s0, es))
    ensures var s := After(w, s0, es);
            v in s.live && NotOutstanding(w, s0, es, v) && Target(w, Pricing(s), v).Priced?
            ==> s.live[v] == Target(w, Pricing(s), v).price
  {
    Reached(w, s0, es);
    var s := After(w, s0, es);
    if v in s.live && NotOutstanding(w, s0, es, v) {
      NobodyOwes(w, s0, es, v);
      assert PriceOk(w, s, v);
    }
  }

  /** The same campaigns, among those covering `v`, are pricing. */
  predicate SamePricersOf(w: World, a: State, b: State, v: Variant) {
    forall c: nat :: c < |w.defs| && v in w.defs[c].scope ==> (c in Pricing(a) <==> c in Pricing(b))
  }

  /**
   * Two histories that leave the same campaigns pricing a variant leave it at the same price,
   * whatever order campaigns were started and ended in and however often a run was cut and resumed.
   */
  lemma HistoryDoesNotMatter(w: World, s1: State, es1: seq<Event>, s2: State, es2: seq<Event>, v: Variant)
    requires Reaches(w, s1, es1) && Reaches(w, s2, es2)
    ensures Runs(w, s1, es1) && Shaped(w, After(w, s1, es1)) && Runs(w, s2, es2) && Shaped(w, After(w, s2, es2))
    ensures var a, b := After(w, s1, es1), After(w, s2, es2);
            SamePricersOf(w, a, b, v) && v in a.live && v in b.live
            && NotOutstanding(w, s1, es1, v) && NotOutstanding(w, s2, es2, v) && Target(w, Pricing(a), v).Priced?
            ==> a.live[v] == b.live[v]
  {
    OnePrice(w, s1, es1, v);
    OnePrice(w, s2, es2, v);
    var a, b := After(w, s1, es1), After(w, s2, es2);
    if SamePricersOf(w, a, b, v) {
      TargetFrame(w, Pricing(a), Pricing(b), v);
    }
  }

  /** When no campaign covering a variant prices any more, it is back at its baseline exactly. */
  lemma AllEndedGivesBaselines(w: World, s0: State, es: seq<Event>, v: Variant)
    requires Reaches(w, s0, es)
    ensures Runs(w, s0, es) && Shaped(w, After(w, s0, es))
    ensures var s := After(w, s0, es);
            v in s.live && v in w.baseline && NotOutstanding(w, s0, es, v)
            && (forall c: nat :: c < |s.camps| && v in w.defs[c].scope ==> !Prices(s.camps[c]))
            ==> s.live[v] == w.baseline[v]
  {
    OnePrice(w, s0, es, v);
    var s := After(w, s0, es);
    if forall c: nat :: c < |s.camps| && v in w.defs[c].scope ==> !Prices(s.camps[c]) {
      TargetFrame(w, Pricing(s), {}, v);
      NobodyWins(w, v, |w.defs|);
    }
  }

  // ---------------------------------------------------------------- the ledger

  /** Every price the store ever accepted had its ledger row first, at every moment of every run. */
  lemma EveryWriteIsLedgered(w: World, s0: State, es: seq<Event>, entry: Entry)
    requires Reaches(w, s0, es)
    ensures Runs(w, s0, es)
    ensures entry in After(w, s0, es).accepted ==> entry in After(w, s0, es).ledgered
  {
    Reached(w, s0, es);
  }

  /**
   * A run reported completed has every row settled, and each one called verified or clamped was
   * read back at exactly its intended price.
   */
  lemma CleanMeansReadBack(w: World, s0: State, es: seq<Event>, c: nat)
    requires Reaches(w, s0, es)
    ensures Runs(w, s0, es)
    ensures var s := After(w, s0, es);
            c < |s.camps| && s.camps[c].run.Some? ==>
              var run := s.camps[c].run.value;
              && (run.status == RunCompleted ==> forall v :: v in run.rows ==> Settled(run.rows[v].status))
              && (forall v :: v in run.rows && Landed(run.rows[v].status) ==> run.rows[v].observed == Some(run.rows[v].intended))
  {
    Reached(w, s0, es);
    var s := After(w, s0, es);
    if c < |s.camps| && s.camps[c].run.Some? {
      assert CampOk(w, s, c);
      forall v | v in s.camps[c].run.value.rows
        ensures RowOk(s, s.camps[c].run.value.rows[v], v)
      {
      }
    }
  }

  /** While a run is live, a row it recorded as landed shows its price on the storefront. */
  lemma NoSilentlyWrongRow(w: World, s0: State, es: seq<Event>, c: nat, v: Variant)
    requires Reaches(w, s0, es)
    ensures Runs(w, s0, es)
    ensures var s := After(w, s0, es);
            c < |s.camps| && InProgress(s.camps[c]) && s.camps[c].run.Some? && v in s.camps[c].run.value.rows
            && Landed(s.camps[c].run.value.rows[v].status) && v in s.live
            ==> s.live[v] == s.camps[c].run.value.rows[v].intended
  {
    Reached(w, s0, es);
    var s := After(w, s0, es);
    if c < |s.camps| {
      assert CampOk(w, s, c);
    }
  }

  /** A poisoned row is never quarantined: each run's ledger counts its own attempts, at most one. */
  lemma QuarantineIsNeverReached(w: World, s0: State, es: seq<Event>, c: nat, v: Variant)
    requires Reaches(w, s0, es)
    ensures Runs(w, s0, es)
    ensures var s := After(w, s0, es);
            c < |s.camps| && s.camps[c].run.Some? && v in s.camps[c].run.value.rows
            && Outstanding(s.camps[c].run.value.rows[v])
            ==> s.camps[c].run.value.rows[v].attempt <= 1 && ResumeSends(s.camps[c].run.value.rows, v)
  {
    Reached(w, s0, es);
    var s := After(w, s0, es);
    if c < |s.camps| && s.camps[c].run.Some? && v in s.camps[c].run.value.rows {
      assert CampOk(w, s, c);
      assert RowOk(s, s.camps[c].run.value.rows[v], v);
    }
  }

  // ------------------------------------------------------ what the merchant sees

  /**
   * Unless moving a finished run's campaign to its final state itself failed: a campaign shown
   * Active or Completed had its last run end clean or send nothing, and one shown Draft or
   * Scheduled has no run that sent anything. Anything else is shown as Partial or still claimed.
   */
  lemma ShownHonestly(w: World, s0: State, es: seq<Event>, c: nat)
    requires Reaches(w, s0, es) && forall e :: e in es ==> !e.LoseClose?
    ensures Runs(w, s0, es)
    ensures var s := After(w, s0, es);
            c < |s.camps| && s.camps[c].process.None? && s.camps[c].run.Some? ==>
              var k := s.camps[c];
              && (k.run.value.status == RunPartial ==> k.status !in {Active, Completed, Draft, Scheduled})
              && (k.status == Draft || k.status == Scheduled ==>
                    forall v :: v in k.run.value.rows ==> k.run.value.rows[v].status == Pending)
  {
    Reached(w, s0, es);
    var s := After(w, s0, es);
    if c < |s.camps| {
      assert CampOk(w, s, c) && Shown(s.camps[c]);
    }
  }

  // -------------------------------------------------------------- bulk operations

  /** No two bulk operations running at once carry the same variant. */
  lemma NothingSentTwice(w: World, s0: State, es: seq<Event>, i: nat, j: nat)
    requires Reaches(w, s0, es)
    ensures Runs(w, s0, es)
    ensures var s := After(w, s0, es);
            i < |s.ops| && j < |s.ops| && i != j && !s.ops[i].done && !s.ops[j].done
            ==> s.ops[i].sent.Keys !! s.ops[j].sent.Keys
  {
    Reached(w, s0, es);
    var s := After(w, s0, es);
    if i < |s.ops| && j < |s.ops| && i != j && !s.ops[i].done && !s.ops[j].done {
      assert OpOk(w, s, i) && OpOk(w, s, j);
      assert Busy(s, s.ops[i].owner) && Busy(s, s.ops[j].owner);
      assert Disjoint(w, s.ops[i].owner, s.ops[j].owner);
    }
  }

  /**
   * While Shopify runs a campaign's bulk operation and nobody is waiting for it, the campaign can
   * be claimed exactly when the operation was never recorded, the move being legal.
   */
  lemma RefusedWhileRunning(w: World, s0: State, es: seq<Event>, i: nat, kind: Kind)
    requires Reaches(w, s0, es)
    ensures Runs(w, s0, es)
    ensures var s := After(w, s0, es);
            i < |s.ops| && !s.ops[i].done ==>
              s.ops[i].owner < |s.camps| &&
              var k := s.camps[s.ops[i].owner];
              (k.process.None? && !LiveRun(k) && CanTransition(k.status, ClaimState(kind)) ==>
                 (CanClaim(s, s.ops[i].owner, kind) <==> k.run.Some? && k.run.value.op != Some(i)))
  {
    Reached(w, s0, es);
    var s := After(w, s0, es);
    if i < |s.ops| && !s.ops[i].done {
      assert OpOk(w, s, i) && CampOk(w, s, s.ops[i].owner) && Rest(s, s.ops[i].owner);
      RefusedWhenRecorded(w, s, i, kind);
    }
  }

  lemma RefusedWhenRecorded(w: World, s: State, i: nat, kind: Kind)
    requires Shaped(w, s) && i < |s.ops| && !s.ops[i].done && OpOk(w, s, i)
    requires RunOk(w, s, s.ops[i].owner) && Rest(s, s.ops[i].owner)
    ensures var k := s.camps[s.ops[i].owner];
            k.process.None? && !LiveRun(k) && CanTransition(k.status, ClaimState(kind)) ==>
              (CanClaim(s, s.ops[i].owner, kind) <==> k.run.Some? && k.run.value.op != Some(i))
  {
    assert s.ops[i].sent.Keys != {};
    var v :| v in s.ops[i].sent;
    assert v in s.camps[s.ops[i].owner].run.value.rows;
  }

  /** Reading a finished operation's result leaves no row pending or marked as sent. */
  lemma SettlingLeavesNothingOpen(w: World, s0: State, es: seq<Event>, c: nat, reported: set<Variant>, mirrored: bool, v: Variant)
    requires Reaches(w, s0, es)
    ensures Runs(w, s0, es)
    ensures var s := After(w, s0, es);
            CanSettleOp(s, c, reported) && v in s.camps[c].run.value.rows ==>
              var s' := DoSettleOp(s, c, reported, mirrored);
              var row, op := s.camps[c].run.value.rows[v], s.ops[s.camps[c].run.value.op.value];
              && v in s'.camps[c].run.value.rows
              && !Waiting(s'.camps[c].run.value.rows[v].status)
              && (row.status == Writing && v in op.wrote * reported ==> Landed(s'.camps[c].run.value.rows[v].status))
              && (row.status == Writing && v !in reported ==> s'.camps[c].run.value.rows[v].status == Applied)
  {
    Reached(w, s0, es);
    var s := After(w, s0, es);
    if CanSettleOp(s, c, reported) && v in s.camps[c].run.value.rows {
      assert CampOk(w, s, c) && Rest(s, c);
      SettledRowIsHeard(w, s, c, reported, v);
    }
  }

  /** What a result file makes of one row of the operation it is about. */
  lemma SettledRowIsHeard(w: World, s: State, c: nat, reported: set<Variant>, v: Variant)
    requires Shaped(w, s) && CanSettleOp(s, c, reported) && RunOk(w, s, c) && Rest(s, c)
    requires v in s.camps[c].run.value.rows
    ensures var rows, op := s.camps[c].run.value.rows, s.ops[s.camps[c].run.value.op.value];
            var rows' := SettledRows(rows, op, reported);
            && v in rows' && !Waiting(rows'[v].status)
            && (rows[v].status == Writing && v in op.wrote * reported ==> Landed(rows'[v].status))
            && (rows[v].status == Writing && v !in reported ==> rows'[v].status == Applied)
  {
    assert HoldsRun(s, c, s.camps[c].run.value.op.value);
    assert NonePending(s.camps[c]);
    RowBecomes(s.camps[c].run.value.rows, s.ops[s.camps[c].run.value.op.value], reported, v);
  }

  lemma RowBecomes(rows: map<Variant, Row>, op: Op, reported: set<Variant>, v: Variant)
    requires v in rows && v in op.sent && rows[v].status != Pending
    ensures var rows' := SettledRows(rows, op, reported);
            && v in rows' && !Waiting(rows'[v].status)
            && (rows[v].status == Writing && v in op.wrote * reported ==> Landed(rows'[v].status))
            && (rows[v].status == Writing && v !in reported ==> rows'[v].status == Applied)
  {
  }
}
