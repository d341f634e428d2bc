/**
 * What becomes of a price once it has landed, and of a bulk operation once it is on record.
 */
module ProtocolLanding {
  import opened Wrappers
  import opened Lifecycle
  import opened Ledger
  import opened Protocol
  import opened ProtocolInvariant
  import opened ProtocolBulk
  import opened ProtocolTheorems
  import opened ProtocolRest
  import opened ProtocolPromises

  // ---------------------------------------------------- landed until overwritten

  /** A price of `v` was accepted from a run that opened after run `no`. */
  predicate Overwritten(s: State, v: Variant, no: nat) {
    exists entry :: entry in s.accepted && entry.variant == v && entry.run > no
  }

  /** A row called landed shows its price unless a later run's has been accepted. */
  predicate RowsHold(s: State, k: Camp) {
    k.run.Some? ==> forall v :: v in k.run.value.rows && Landed(k.run.value.rows[v].status) && v in s.live ==>
      s.live[v] == k.run.value.rows[v].intended || Overwritten(s, v, k.run.value.no)
  }

  /** Prices of `d`'s latest run may still reach the store. */
  predicate StillSending(s: State, d: nat)
    requires d < |s.camps|
  {
    s.camps[d].run.Some? && (LiveRun(s.camps[d]) || OpRunning(s, d))
  }

  /** A run still sending opened after every run of another campaign over the same variant. */
  predicate Newer(s: State, c: nat, d: nat)
    requires c < |s.camps| && d < |s.camps|
  {
    c != d && s.camps[c].run.Some? && StillSending(s, d)
    && !(s.camps[c].run.value.rows.Keys !! s.camps[d].run.value.rows.Keys)
    ==> s.camps[c].run.value.no < s.camps[d].run.value.no
  }

  predicate Numbered(s: State) {
    && (forall c: nat :: c < |s.camps| && s.camps[c].run.Some? ==> s.camps[c].run.value.no < s.runs)
    && (forall c: nat, d: nat :: c < |s.camps| && d < |s.camps| ==> Newer(s, c, d))
  }

  ghost predicate AllHold(s: State) {
    Numbered(s) && forall c: nat :: c < |s.camps| ==> RowsHold(s, s.camps[c])
  }

  /** A step that opens no run leaves every run's number and variants, and starts none sending. */
  lemma RunsStay(w: World, s: State, e: Event, c: nat)
    requires Inv(w, s) && Enabled(w, s, e) && c < |s.camps| && !(e.Open? && e.c == c)
    ensures var s' := Step(w, s, e);
            && c < |s'.camps| && s'.runs >= s.runs
            && (s'.camps[c].run.Some? <==> s.camps[c].run.Some?)
            && (s.camps[c].run.Some? ==> s'.camps[c].run.value.no == s.camps[c].run.value.no
                                         && s'.camps[c].run.value.rows.Keys == s.camps[c].run.value.rows.Keys)
            && (StillSending(s', c) ==> StillSending(s, c))
  {
    var s' := Step(w, s, e);
    if OpRunning(s', c) && !OpRunning(s, c) {
      var i :| 0 <= i < |s'.ops| && s'.ops[i].owner == c && !s'.ops[i].done;
      OpsKeepOn(w, s, e);
      OpsOwned(w, s, e, i);
    }
    if Actor(e) != Some(c) {
      OthersStay(w, s, e, c);
    } else {
      RunStays(w, s, e);
    }
  }

  /** A new operation belongs to the live run that submitted it. */
  lemma OpsOwned(w: World, s: State, e: Event, i: nat)
    requires Enabled(w, s, e) && i < |Step(w, s, e).ops|
    ensures i < |s.ops| ==> Step(w, s, e).ops[i].owner == s.ops[i].owner
    ensures i >= |s.ops| ==> e.Submit? && Step(w, s, e).ops[i].owner == e.c && LiveRun(s.camps[e.c])
  {
  }

  lemma RunStays(w: World, s: State, e: Event)
    requires Shaped(w, s) && Enabled(w, s, e) && Actor(e).Some? && !e.Open? && e.c < |s.camps|
    ensures var k, k' := s.camps[e.c], Step(w, s, e).camps[e.c];
            && (k'.run.Some? <==> k.run.Some?)
            && (k.run.Some? ==> k'.run.value.no == k.run.value.no && k'.run.value.rows.Keys == k.run.value.rows.Keys)
            && (LiveRun(k') ==> LiveRun(k))
  {
  }

  lemma OpenNumbers(w: World, s: State, c: nat, ledgered: set<Variant>)
    requires Inv(w, s) && Numbered(s) && CanOpen(w, s, c)
    ensures Numbered(DoOpen(w, s, c, ledgered))
  {
    var s' := DoOpen(w, s, c, ledgered);
    assert CampOk(w, s, c) && Busy(s, c);
    forall a: nat, d: nat | a < |s'.camps| && d < |s'.camps|
      ensures Newer(s', a, d)
    {
      assert Newer(s, a, d);
      if d != c && StillSending(s', d) && a == c {
        assert OpRunning(s', d) == OpRunning(s, d);
        assert Busy(s, d) && Disjoint(w, c, d);
        assert CampOk(w, s, d);
      }
    }
  }

  lemma StepNumbers(w: World, s: State, e: Event)
    requires Inv(w, s) && Numbered(s) && Enabled(w, s, e)
    ensures Numbered(Step(w, s, e))
  {
    var s' := Step(w, s, e);
    if e.Open? {
      OpenNumbers(w, s, e.c, e.ledgered);
    } else {
      forall a: nat | a < |s'.camps|
        ensures s'.camps[a].run.Some? ==> s'.camps[a].run.value.no < s'.runs
      {
        RunsStay(w, s, e, a);
      }
      forall a: nat, d: nat | a < |s'.camps| && d < |s'.camps|
        ensures Newer(s', a, d)
      {
        assert Newer(s, a, d);
        StaysNewer(w, s, e, a, d);
      }
    }
  }

  lemma StaysNewer(w: World, s: State, e: Event, a: nat, d: nat)
    requires Inv(w, s) && Enabled(w, s, e) && !e.Open? && a < |s.camps| && d < |s.camps| && Newer(s, a, d)
    ensures a < |Step(w, s, e).camps| && d < |Step(w, s, e).camps| && Newer(Step(w, s, e), a, d)
  {
    RunsStay(w, s, e, a);
    RunsStay(w, s, e, d);
  }

  /** A price that moved was accepted from a run still sending, for a row it had not settled. */
  lemma MovedByASender(w: World, s: State, e: Event, v: Variant) returns (d: nat)
    requires Inv(w, s) && Enabled(w, s, e)
    requires v in s.live && v in Step(w, s, e).live && Step(w, s, e).live[v] != s.live[v]
    ensures d < |s.camps| && StillSending(s, d) && v in s.camps[d].run.value.rows
    ensures !Landed(s.camps[d].run.value.rows[v].status)
    ensures exists price :: Entry(d, s.camps[d].run.value.no, v, price) in Step(w, s, e).accepted
  {
    if e.Write? || e.Refuse? {
      d := e.c;
      SenderWrites(w, s, d, e.v);
      assert Entry(d, s.camps[d].run.value.no, v, s.camps[d].run.value.rows[v].intended) in Step(w, s, e).accepted;
    } else {
      assert e.OpWrite?;
      d := s.ops[e.i].owner;
      assert OpOk(w, s, e.i);
      assert Entry(d, s.camps[d].run.value.no, v, s.ops[e.i].sent[v]) in Step(w, s, e).accepted;
    }
  }

  /** A row a run is about to send has not landed. */
  lemma SenderWrites(w: World, s: State, c: nat, v: Variant)
    requires Inv(w, s) && CanSend(s, c, v)
    ensures !Landed(s.camps[c].run.value.rows[v].status)
  {
    assert CampOk(w, s, c);
  }

  lemma AcceptedGrows(w: World, s: State, e: Event)
    requires Enabled(w, s, e)
    ensures s.accepted <= Step(w, s, e).accepted
    ensures forall v :: v in Step(w, s, e).live ==> v in s.live
  {
  }

  /** A landed row of a run over, or of another campaign, keeps its price or is overwritten by a later run. */
  lemma StaysOrOverwritten(w: World, s: State, e: Event, c: nat, v: Variant, price: Price)
    requires Inv(w, s) && Numbered(s) && Enabled(w, s, e) && c < |s.camps| && s.camps[c].run.Some?
    requires v in s.camps[c].run.value.rows && Landed(s.camps[c].run.value.rows[v].status)
    requires v in s.live && (s.live[v] == price || Overwritten(s, v, s.camps[c].run.value.no))
    ensures var s' := Step(w, s, e);
            v in s'.live ==> s'.live[v] == price || Overwritten(s', v, s.camps[c].run.value.no)
  {
    var s' := Step(w, s, e);
    AcceptedGrows(w, s, e);
    if v in s'.live && s'.live[v] != s.live[v] {
      var d := MovedByASender(w, s, e, v);
      assert d != c && Newer(s, c, d);
      assert v in s.camps[c].run.value.rows.Keys * s.camps[d].run.value.rows.Keys;
    }
  }

  /** What a step does to the landed rows of the campaign it is for. */
  lemma ActorLands(w: World, s: State, e: Event, c: nat)
    requires Inv(w, s) && AllHold(s) && Enabled(w, s, e) && Actor(e) == Some(c) && c < |s.camps|
    requires Inv(w, Step(w, s, e))
    ensures RowsHold(Step(w, s, e), Step(w, s, e).camps[c])
  {
    var s' := Step(w, s, e);
    assert CampOk(w, s', c) && RowsHold(s, s.camps[c]);
    if s'.camps[c].run.Some? && !InProgress(s'.camps[c]) {
      if e.SettleOp? {
        assert CampOk(w, s, c) && OpOk(w, s, s.camps[c].run.value.op.value);
        SettleOpRows(w, s, c, e.reported);
      } else {
        QuietlyOver(w, s, e, c);
      }
    }
  }

  /** A run that is over after a step, and whose operation was not read, landed nothing in it and wrote nothing. */
  lemma QuietlyOver(w: World, s: State, e: Event, c: nat)
    requires Shaped(w, s) && Enabled(w, s, e) && Actor(e) == Some(c) && c < |s.camps| && !e.SettleOp?
    requires Step(w, s, e).camps[c].run.Some? && !InProgress(Step(w, s, e).camps[c])
    ensures var s', k, k' := Step(w, s, e), s.camps[c], Step(w, s, e).camps[c];
            && s'.live == s.live && s'.accepted == s.accepted
            && k.run.Some? && k'.run.value.no == k.run.value.no
            && forall v :: v in k'.run.value.rows && Landed(k'.run.value.rows[v].status) ==>
                 v in k.run.value.rows && k.run.value.rows[v] == k'.run.value.rows[v]
  {
  }

  lemma StepLands(w: World, s: State, e: Event)
    requires Inv(w, s) && AllHold(s) && Enabled(w, s, e)
    requires Inv(w, Step(w, s, e))
    ensures AllHold(Step(w, s, e))
  {
    var s' := Step(w, s, e);
    StepNumbers(w, s, e);
    forall c: nat | c < |s'.camps|
      ensures RowsHold(s', s'.camps[c])
    {
      assert RowsHold(s, s.camps[c]);
      if Actor(e) != Some(c) {
        OthersStay(w, s, e, c);
        OtherLands(w, s, e, c);
      } else {
        ActorLands(w, s, e, c);
      }
    }
  }

  lemma OtherLands(w: World, s: State, e: Event, c: nat)
    requires Inv(w, s) && Numbered(s) && Enabled(w, s, e) && c < |s.camps| && RowsHold(s, s.camps[c])
    ensures RowsHold(Step(w, s, e), s.camps[c])
  {
    var k := s.camps[c];
    if k.run.Some? {
      AcceptedGrows(w, s, e);
      forall v | v in k.run.value.rows && Landed(k.run.value.rows[v].status) && v in Step(w, s, e).live
        ensures Step(w, s, e).live[v] == k.run.value.rows[v].intended || Overwritten(Step(w, s, e), v, k.run.value.no)
      {
        StaysOrOverwritten(w, s, e, c, v, k.run.value.rows[v].intended);
      }
    }
  }

  lemma {:induction false} RunsLand(w: World, s: State, es: seq<Event>)
    requires Inv(w, s) && AllHold(s) && ClearRuns(w, s, es)
    ensures Runs(w, s, es) && AllHold(After(w, s, es))
    decreases |es|
  {
    if es != [] {
      StepKeeps(w, s, es[0]);
      StepLands(w, s, es[0]);
      RunsLand(w, Step(w, s, es[0]), es[1..]);
    }
  }

  /**
   * At every moment of every run, during the run that wrote it and ever after: a row called verified
   * or clamped shows its price on the storefront until a price of a later run is accepted for that
   * variant or the variant is deleted.
   */
  lemma LandedUntilOverwritten(w: World, s0: State, es: seq<Event>, c: nat, v: Variant)
    requires Reaches(w, s0, es)
    ensures Runs(w, s0, es)
    ensures var s := After(w, s0, es);
            c < |s.camps| && s.camps[c].run.Some? && v in s.camps[c].run.value.rows
            && Landed(s.camps[c].run.value.rows[v].status) && v in s.live
            ==> s.live[v] == s.camps[c].run.value.rows[v].intended || Overwritten(s, v, s.camps[c].run.value.no)
  {
    FreshOk(w, s0);
    forall c: nat | c < |s0.camps|
      ensures s0.camps[c].run.None?
    {
      assert s0.camps[c] in s0.camps;
    }
    RunsLand(w, s0, es);
    assert c < |After(w, s0, es).camps| ==> RowsHold(After(w, s0, es), After(w, s0, es).camps[c]);
  }

  // ------------------------------------------------------- operations on record

  /** What `Clear` asks of a claim, less that no operation of the campaign's own is running. */
  predicate ClearOfOthers(w: World, s: State, e: Event)
    requires Shaped(w, s)
  {
    e.Claim? && e.c < |s.camps| ==>
      && (forall d: nat :: d < |s.camps| && d != e.c && Busy(s, d) ==> Disjoint(w, e.c, d))
      && (e.resume ==> s.camps[e.c].status == Partial)
  }

  /** A process dies, or throws, between Shopify accepting its operation and the ledger recording it. */
  predicate LosesOp(s: State, e: Event) {
    (e.Die? || e.StopWriting?) && e.c < |s.camps|
    && s.camps[e.c].process.Some? && s.camps[e.c].process.value.op.Some?
    && (s.camps[e.c].run.Some? ==> s.camps[e.c].run.value.op.None?)
  }

  predicate OnRecord(s: State) {
    forall i: nat :: i < |s.ops| && !s.ops[i].done ==> s.ops[i].owner < |s.camps| && HoldsLatest(s, i)
  }

  /** A run of the protocol in which no operation is lost that way. */
  predicate RecordedRuns(w: World, s: State, es: seq<Event>)
    decreases |es|
  {
    es == [] ||
    (Enabled(w, s, es[0]) && ClearOfOthers(w, s, es[0]) && !LosesOp(s, es[0])
     && RecordedRuns(w, Step(w, s, es[0]), es[1..]))
  }

  /** With every running operation on record, a campaign that can be claimed has none. */
  lemma ClaimedHasNoOp(w: World, s: State, c: nat, kind: Kind)
    requires Inv(w, s) && Rests(s) && OnRecord(s) && CanClaim(s, c, kind)
    ensures !OpRunning(s, c)
  {
    forall i: nat | i < |s.ops| && s.ops[i].owner == c
      ensures s.ops[i].done
    {
      assert OpOk(w, s, i) && Rest(s, c);
      if !s.ops[i].done {
        RunningIsSent(w, s, i);
      }
    }
  }

  /** A running operation on record, with no process waiting for it, shows its rows as sent. */
  lemma RunningIsSent(w: World, s: State, i: nat)
    requires Shaped(w, s) && i < |s.ops| && OpOk(w, s, i) && !s.ops[i].done && Rest(s, s.ops[i].owner)
    requires HoldsLatest(s, i) && s.camps[s.ops[i].owner].process.None?
    ensures Sent(s.camps[s.ops[i].owner])
  {
    assert s.ops[i].sent.Keys != {};
    var v :| v in s.ops[i].sent;
    assert v in s.camps[s.ops[i].owner].run.value.rows;
  }

  lemma StepOnRecord(w: World, s: State, e: Event)
    requires Inv(w, s) && OnRecord(s) && Enabled(w, s, e) && !LosesOp(s, e)
    ensures OnRecord(Step(w, s, e))
  {
    var s' := Step(w, s, e);
    OpsKeepOn(w, s, e);
    forall i: nat | i < |s'.ops| && !s'.ops[i].done
      ensures s'.ops[i].owner < |s'.camps| && HoldsLatest(s', i)
    {
      OpsOwned(w, s, e, i);
      if i < |s.ops| {
        var c := s.ops[i].owner;
        assert HoldsLatest(s, i) && OpRunning(s, c) && CampOk(w, s, c) && OpOk(w, s, i);
        KeepsOnRecord(w, s, e, i);
      }
    }
  }

  lemma KeepsOnRecord(w: World, s: State, e: Event, i: nat)
    requires Shaped(w, s) && Enabled(w, s, e) && !LosesOp(s, e) && i < |s.ops| && !s.ops[i].done
    requires var c := s.ops[i].owner;
             c < |s.camps| && HoldsLatest(s, i) && OpRunning(s, c) && RunOk(w, s, c) && ProcessOk(w, s, c) && OpUnfinished(s, i)
    requires i < |Step(w, s, e).ops| && Step(w, s, e).ops[i].owner == s.ops[i].owner
    ensures s.ops[i].owner < |Step(w, s, e).camps| && HoldsLatest(Step(w, s, e), i)
  {
    var c := s.ops[i].owner;
    if Actor(e) != Some(c) {
      OthersStay(w, s, e, c);
    } else {
      ActorKeepsRecord(w, s, e, c, i);
    }
  }

  /** Operation `i` is `k`'s own, submitted by its process or recorded for its run. */
  predicate HasOp(k: Camp, i: nat) {
    (k.process.Some? && k.process.value.op == Some(i)) || (k.run.Some? && k.run.value.op == Some(i))
  }

  lemma ActorKeepsRecord(w: World, s: State, e: Event, c: nat, i: nat)
    requires Shaped(w, s) && Enabled(w, s, e) && !LosesOp(s, e) && Actor(e) == Some(c) && c < |s.camps|
    requires i < |s.ops| && s.ops[i].owner == c && !s.ops[i].done && HoldsLatest(s, i) && OpRunning(s, c)
    requires RunOk(w, s, c) && ProcessOk(w, s, c) && OpUnfinished(s, i)
    ensures HasOp(Step(w, s, e).camps[c], i)
  {
    if e.Claim? || e.Open? || e.Release? || e.Submit? || e.Close? || e.LoseClose? || e.SettleMirror? || e.FinishRun? {
      StartKeepsRecord(w, s, e, c, i);
    } else {
      RunKeepsRecord(w, s, e, c, i);
    }
  }

  lemma StartKeepsRecord(w: World, s: State, e: Event, c: nat, i: nat)
    requires Shaped(w, s) && Enabled(w, s, e) && Actor(e) == Some(c) && c < |s.camps|
    requires e.Claim? || e.Open? || e.Release? || e.Submit? || e.Close? || e.LoseClose? || e.SettleMirror? || e.FinishRun?
    requires i < |s.ops| && s.ops[i].owner == c && HoldsLatest(s, i) && OpRunning(s, c)
    requires RunOk(w, s, c) && ProcessOk(w, s, c) && OpUnfinished(s, i)
    ensures HasOp(Step(w, s, e).camps[c], i)
  {
  }

  lemma RunKeepsRecord(w: World, s: State, e: Event, c: nat, i: nat)
    requires Shaped(w, s) && Enabled(w, s, e) && !LosesOp(s, e) && Actor(e) == Some(c) && c < |s.camps|
    requires !(e.Claim? || e.Open? || e.Release? || e.Submit? || e.Close? || e.LoseClose? || e.SettleMirror? || e.FinishRun?)
    requires i < |s.ops| && s.ops[i].owner == c && HoldsLatest(s, i) && OpRunning(s, c)
    requires ProcessOk(w, s, c)
    ensures HasOp(Step(w, s, e).camps[c], i)
  {
  }

  /**
   * So in a run that loses no operation, nobody need ask whether the campaign's own operation is
   * still running: the refusal the code makes is enough, and every claim is clear.
   */
  lemma {:induction false} RecordedRunsAreClear(w: World, s: State, es: seq<Event>)
    requires Inv(w, s) && Rests(s) && OnRecord(s) && RecordedRuns(w, s, es)
    ensures ClearRuns(w, s, es)
    decreases |es|
  {
    if es != [] {
      if es[0].Claim? {
        ClaimedHasNoOp(w, s, es[0].c, es[0].kind);
      }
      StepKeeps(w, s, es[0]);
      StepRest(w, s, es[0]);
      StepOnRecord(w, s, es[0]);
      RecordedRunsAreClear(w, Step(w, s, es[0]), es[1..]);
    }
  }

  /** From a fresh storefront: nothing is sent twice, the code's own refusals being enough. */
  lemma RecordedIsSentOnce(w: World, s0: State, es: seq<Event>, i: nat, j: nat)
    requires Fresh(w, s0) && RecordedRuns(w, s0, es)
    ensures Reaches(w, s0, es) && Runs(w, s0, es)
    ensures var s := After(w, s0, es);
            i < |s.ops| && j < |s.ops| && i != j && !s.ops[i].done && !s.ops[j].done
            ==> s.ops[i].sent.Keys !! s.ops[j].sent.Keys
  {
    Reached(w, s0, []);
    RecordedRunsAreClear(w, s0, es);
    NothingSentTwice(w, s0, es, i, j);
  }
}
