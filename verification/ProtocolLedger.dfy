/** What a campaign's ledger says, at every moment of every run. */
module ProtocolLedger {
  import opened Wrappers
  import opened Lifecycle
  import opened Ledger
  import opened Protocol
  import opened ProtocolInvariant
  import opened ProtocolRest
  import opened ProtocolAnswers
  import opened ProtocolPromises

  /**
   * A row of a campaign's latest run, whatever led there: while the run is under way it plans what resolution
   * gives, clamp and all; verified and clamped rows were read back at their price with no attempt spent, each
   * called by whether it was clamped; a failed one has spent its attempt; a skipped one's variant is gone.
   */
  lemma RowsSay(w: World, s0: State, es: seq<Event>, c: nat, v: Variant)
    requires Reaches(w, s0, es)
    ensures Runs(w, s0, es)
    ensures var s := After(w, s0, es);
            c < |s.camps| && s.camps[c].run.Some? && v in s.camps[c].run.value.rows ==>
              var row := s.camps[c].run.value.rows[v];
              && (InProgress(s.camps[c]) ==> Target(w, Pricing(s), v) == Priced(row.intended, row.clamped))
              && match row.status
                 case Pending => row.attempt == 0
                 case Writing => row.attempt == 0
                 case Applied => row.attempt <= 1
                 case Failed => row.attempt == 1
                 case Skipped => row.attempt <= 1 && v !in s.live
                 case Verified => !row.clamped && row.attempt == 0 && row.observed == Some(row.intended)
                 case Clamped => row.clamped && row.attempt == 0 && row.observed == Some(row.intended)
                 case Reverted => false
  {
    Reached(w, s0, es);
    var s := After(w, s0, es);
    if c < |s.camps| && s.camps[c].run.Some? && v in s.camps[c].run.value.rows {
      assert CampOk(w, s, c);
      assert RowOk(s, s.camps[c].run.value.rows[v], v);
    }
  }

  /**
   * Read back and recorded, in whatever state the storefront is by then: the row has landed exactly when its
   * price is what the variant shows, and has failed when another is shown or the variant is gone.
   */
  lemma ReadBackDecides(w: World, s: State, c: nat, v: Variant)
    requires Shaped(w, s) && CanReadBack(s, c, v) && Waiting(s.camps[c].run.value.rows[v].status)
    ensures Runs(w, s, [ReadBack(c, v), RecordRow(c, v)])
    ensures var a, row := After(w, s, [ReadBack(c, v), RecordRow(c, v)]), s.camps[c].run.value.rows[v];
            && a.live == s.live && c < |a.camps| && a.camps[c].run.Some? && v in a.camps[c].run.value.rows
            && var row' := a.camps[c].run.value.rows[v];
            && row'.intended == row.intended
            && (v in s.live && s.live[v] == row.intended ==> Landed(row'.status) && row'.observed == Some(row.intended))
            && (!(v in s.live && s.live[v] == row.intended) ==> row'.status == Failed && row'.attempt == row.attempt + 1)
  {
    RunsPair(w, s, ReadBack(c, v), RecordRow(c, v));
  }

  // ------------------------------------------------------------- what may happen

  /**
   * Nothing in the model keeps the world from going wrong: a process can die and a variant be deleted at any
   * moment, a row about to be sent can be taken or refused, landed or not, and a live run can be reclaimed once
   * its process is gone.
   */
  lemma AnythingGoes(w: World, s: State, c: nat, v: Variant)
    requires Shaped(w, s) && c < |s.camps|
    ensures s.camps[c].process.Some? ==> Enabled(w, s, Die(c))
    ensures s.camps[c].process.None? && LiveRun(s.camps[c]) ==> Enabled(w, s, Reap(c))
    ensures v in s.live ==> Enabled(w, s, Delete(v))
    ensures CanSend(s, c, v) ==> Enabled(w, s, Write(c, v)) && Enabled(w, s, Refuse(c, v, true)) && Enabled(w, s, Refuse(c, v, false))
  {
  }

  /** An operation can reach any row it has left, write it or refuse it, and be over with the rest undone. */
  lemma OperationsMayStall(w: World, s: State, i: nat, v: Variant)
    requires Inv(w, s) && i < |s.ops| && !s.ops[i].done
    ensures Enabled(w, s, OpEnd(i))
    ensures v in s.ops[i].left ==> Enabled(w, s, OpWrite(i, v)) && Enabled(w, s, OpRefuse(i, v))
  {
    assert OpOk(w, s, i);
  }

  // ---------------------------------------------------------- claims given back

  /** A claim given back before anything was planned leaves everything as it was. */
  lemma ClaimedAndGivenBack(w: World, s: State, c: nat, kind: Kind, resume: bool)
    requires Shaped(w, s) && CanClaim(s, c, kind)
    ensures Runs(w, s, [Claim(c, kind, resume), Release(c)]) && After(w, s, [Claim(c, kind, resume), Release(c)]) == s
  {
    RunsPair(w, s, Claim(c, kind, resume), Release(c));
    var a := DoRelease(w, DoClaim(w, s, c, kind, resume), c);
    assert a.camps[c] == s.camps[c];
    assert a.camps == s.camps;
  }

  /**
   * While one variant a claimed campaign covers is blocked by whoever would price it, its run does nothing
   * but give the claim back or die: it writes no ledger and sends no price.
   */
  lemma BlockedRunOpensNothing(w: World, s: State, c: nat, v: Variant, e: Event)
    requires Inv(w, s) && c < |s.camps| && At(s.camps[c], Claimed) && v in w.defs[c].scope
    requires Target(w, With(Pricing(s), c, s.camps[c].process.value.kind == Apply), v).Blocks?
    requires Enabled(w, s, e) && Actor(e) == Some(c)
    ensures e == Release(c) || e == Die(c)
    ensures var a := Step(w, s, e); a.live == s.live && a.ops == s.ops && a.ledgered == s.ledgered
  {
    assert CampOk(w, s, c);
    assert Stopped(w, s, c);
  }

  // ------------------------------------------------------------- every entry

  /** The entries of `c`'s latest run are its rows, each at its planned price. */
  ghost predicate EntriesAreRows(s: State, c: nat)
    requires c < |s.camps|
  {
    s.camps[c].run.Some? ==>
      var run := s.camps[c].run.value;
      && run.no < s.runs
      && forall v, price :: Entry(c, run.no, v, price) in s.ledgered <==> v in run.rows && run.rows[v].intended == price
  }

  ghost predicate LedgerExact(s: State) {
    && (forall e :: e in s.ledgered ==> e.run < s.runs)
    && forall c: nat :: c < |s.camps| ==> EntriesAreRows(s, c)
  }

  /** A step that opens no run changes no entry. */
  lemma NobodyLedgers(w: World, s: State, e: Event)
    requires Enabled(w, s, e) && !e.Open?
    ensures var s' := Step(w, s, e); s'.ledgered == s.ledgered && s'.runs == s.runs && |s'.camps| == |s.camps|
  {
  }

  /** Nor any row's planned price. */
  lemma StaysPlanned(w: World, s: State, e: Event, c: nat)
    requires Enabled(w, s, e) && !e.Open? && c < |s.camps|
    ensures c < |Step(w, s, e).camps| && SamePlans(s.camps[c], Step(w, s, e).camps[c])
  {
    if Actor(e) == Some(c) {
      OwnStaysPlanned(w, s, e);
    } else {
      OthersStay(w, s, e, c);
    }
  }

  lemma OwnStaysPlanned(w: World, s: State, e: Event)
    requires Enabled(w, s, e) && !e.Open? && Actor(e).Some?
    ensures e.c < |s.camps| == |Step(w, s, e).camps| && SamePlans(s.camps[e.c], Step(w, s, e).camps[e.c])
  {
    match e
    case RecordRow(c, v) => RecordStaysPlanned(s, c, v);
    case NoteSubmitted(c) => NoteStaysPlanned(s, c);
    case SettleOp(c, reported, mirrored) => SettleStaysPlanned(s, c, reported, mirrored);
    case StopWriting(c) => StopStaysPlanned(s, c);
    case Reap(c) => StopStaysPlanned(s, c);
    case _ => RowsStayPlanned(w, s, e);
  }

  lemma RowsStayPlanned(w: World, s: State, e: Event)
    requires Enabled(w, s, e) && Actor(e).Some? && !e.Open? && !e.RecordRow? && !e.NoteSubmitted? && !e.SettleOp?
    requires !e.StopWriting? && !e.Reap?
    ensures e.c < |s.camps| == |Step(w, s, e).camps| && SamePlans(s.camps[e.c], Step(w, s, e).camps[e.c])
  {
  }

  lemma StopStaysPlanned(s: State, c: nat)
    requires CanStop(s, c)
    ensures SamePlans(s.camps[c], DoStop(s, c).camps[c])
  {
  }

  lemma RecordStaysPlanned(s: State, c: nat, v: Variant)
    requires CanRecord(s, c, v)
    ensures SamePlans(s.camps[c], DoRecordRow(s, c, v).camps[c])
  {
  }

  lemma NoteStaysPlanned(s: State, c: nat)
    requires CanNote(s, c)
    ensures SamePlans(s.camps[c], DoNoteSubmitted(s, c).camps[c])
  {
  }

  lemma SettleStaysPlanned(s: State, c: nat, reported: set<Variant>, mirrored: bool)
    requires CanSettleOp(s, c, reported)
    ensures SamePlans(s.camps[c], DoSettleOp(s, c, reported, mirrored).camps[c])
  {
  }

  predicate SamePlans(k: Camp, k': Camp) {
    && (k'.run.Some? <==> k.run.Some?)
    && (k.run.Some? ==> SamePlan(k.run.value, k'.run.value))
  }

  predicate SamePlan(run: Run, run': Run) {
    && run'.no == run.no && run'.rows.Keys == run.rows.Keys
    && forall v :: v in run.rows ==> run'.rows[v].intended == run.rows[v].intended
  }

  lemma StepExact(w: World, s: State, e: Event)
    requires Enabled(w, s, e) && LedgerExact(s)
    ensures LedgerExact(Step(w, s, e))
  {
    var s' := Step(w, s, e);
    if e.Open? {
      OpensExact(w, s, e.c, e.ledgered);
    } else {
      NobodyLedgers(w, s, e);
      forall c: nat | c < |s'.camps|
        ensures EntriesAreRows(s', c)
      {
        StaysPlanned(w, s, e, c);
        assert EntriesAreRows(s, c);
      }
    }
  }

  lemma OpensExact(w: World, s: State, c: nat, ledgered: set<Variant>)
    requires CanOpen(w, s, c) && LedgerExact(s)
    ensures LedgerExact(DoOpen(w, s, c, ledgered))
  {
    var s' := DoOpen(w, s, c, ledgered);
    forall d: nat | d < |s'.camps|
      ensures EntriesAreRows(s', d)
    {
      if d != c {
        assert EntriesAreRows(s, d);
      }
    }
  }

  lemma {:induction false} RunsExact(w: World, s: State, es: seq<Event>)
    requires Runs(w, s, es) && LedgerExact(s)
    ensures LedgerExact(After(w, s, es))
    decreases |es|
  {
    if es != [] {
      StepExact(w, s, es[0]);
      RunsExact(w, Step(w, s, es[0]), es[1..]);
    }
  }

  /** Over every run at all, clear or not: a run's entries are its ledger's rows at their planned prices, all of them and no others. */
  lemma EntriesAreTheLedgers(w: World, s0: State, es: seq<Event>, c: nat)
    requires Fresh(w, s0) && Runs(w, s0, es)
    ensures var s := After(w, s0, es); c < |s.camps| ==> EntriesAreRows(s, c)
  {
    forall d: nat | d < |s0.camps|
      ensures EntriesAreRows(s0, d)
    {
      assert s0.camps[d] in s0.camps;
    }
    RunsExact(w, s0, es);
  }
}
