/** What a campaign at rest says about its ledger, and what it shows the merchant. */
module ProtocolRest {
  import opened Wrappers
  import opened Lifecycle
  import opened Ledger
  import opened Protocol
  import opened ProtocolInvariant

  /** Never run, or shown as over by a run that completed. */
  predicate RestsAs(run: Option<Run>, status: CampaignState) {
    if run.None? then status == Draft || status == Scheduled
    else run.value.status == RunCompleted && status == FinalState(run.value.kind, true)
  }

  predicate AtRest(k: Camp) {
    k.process.None? && RestsAs(k.run, k.status)
  }

  /** A campaign shown Active or Completed has no run that ended in between, and a draft has written nothing. */
  predicate ShownAs(run: Option<Run>, status: CampaignState) {
    && ((status == Active || status == Completed) && run.Some?
        ==> run.value.status == RunCompleted || run.value.status == RunFailed)
    && (status == Draft || status == Scheduled ==> run.None? || run.value.status == RunFailed)
  }

  predicate Rest(s: State, c: nat)
    requires c < |s.camps|
  {
    var k := s.camps[c];
    && (At(k, Opened) || At(k, Sending) || At(k, Recording) || At(k, MirrorSettled) ==> OwesItsRows(k))
    && (At(k, Reported) && k.run.Some? && k.run.value.status == RunCompleted ==> k.owed == {})
    && (At(k, Claimed) && RestsAs(k.run, k.process.value.before.status) ==> k.process.value.before.owed == {})
    && (AtRest(k) ==> k.owed == {})
    && (At(k, Sending) && k.run.Some? && k.run.value.op.None? ==> NothingSent(k))
    && (k.run.Some? && k.run.value.op.Some? && k.run.value.op.value < |s.ops| && !s.ops[k.run.value.op.value].done
        ==> AllSent(k))
    && (k.run.Some? && k.run.value.op.Some? ==> NonePending(k))
  }

  predicate NonePending(k: Camp) {
    k.run.Some? && forall v :: v in k.run.value.rows ==> k.run.value.rows[v].status != Pending
  }

  predicate OwesItsRows(k: Camp) {
    k.run.Some? && forall v :: v in k.owed ==> v in k.run.value.rows && Outstanding(k.run.value.rows[v])
  }

  predicate AllSent(k: Camp) {
    k.run.Some? && forall v :: v in k.run.value.rows ==> k.run.value.rows[v].status == Writing
  }

  predicate Shown(k: Camp) {
    && (k.process.None? ==> ShownAs(k.run, k.status))
    && (At(k, Claimed) ==> ShownAs(k.run, k.process.value.before.status))
    && (k.process.Some? ==> k.status == ClaimState(k.process.value.kind))
  }

  ghost predicate Rests(s: State) {
    forall c: nat :: c < |s.camps| ==> Rest(s, c)
  }

  ghost predicate AllShown(s: State) {
    forall c: nat :: c < |s.camps| ==> Shown(s.camps[c])
  }

  lemma StepShown(w: World, s: State, e: Event)
    requires Inv(w, s) && AllShown(s) && Enabled(w, s, e) && !e.LoseClose?
    ensures AllShown(Step(w, s, e))
  {
    var s' := Step(w, s, e);
    forall c: nat | c < |s'.camps|
      ensures Shown(s'.camps[c])
    {
      assert Shown(s.camps[c]) && CampOk(w, s, c);
      CampShown(w, s, e, c);
    }
  }

  lemma CampShown(w: World, s: State, e: Event, c: nat)
    requires Shaped(w, s) && Enabled(w, s, e) && !e.LoseClose? && c < |s.camps|
    requires Shown(s.camps[c]) && RunOk(w, s, c) && ProcessOk(w, s, c)
    ensures c < |Step(w, s, e).camps| && Shown(Step(w, s, e).camps[c])
  {
    if Actor(e) != Some(c) {
      OthersStay(w, s, e, c);
    } else {
      ActorShown(w, s, e);
    }
  }

  lemma ActorShown(w: World, s: State, e: Event)
    requires Shaped(w, s) && Enabled(w, s, e) && Actor(e).Some? && !e.LoseClose? && e.c < |s.camps|
    requires Shown(s.camps[e.c]) && RunOk(w, s, e.c) && ProcessOk(w, s, e.c)
    ensures Shown(Step(w, s, e).camps[e.c])
  {
    if e.Claim? || e.Close? || e.StopWriting? || e.Reap? {
      MovesShown(w, s, e);
    } else if e.Open? || e.Release? || e.Die? || e.SettleOp? {
      LeavesShown(w, s, e);
    } else {
      MidRunShown(w, s, e);
    }
  }

  lemma LeavesShown(w: World, s: State, e: Event)
    requires Shaped(w, s) && Enabled(w, s, e) && (e.Open? || e.Release? || e.Die? || e.SettleOp?)
    requires Shown(s.camps[e.c]) && ProcessOk(w, s, e.c)
    ensures Shown(Step(w, s, e).camps[e.c])
  {
    match e
    case Open(c, ledgered) => OpenShown(w, s, c, ledgered);
    case Release(c) => ReleaseShown(w, s, c);
    case Die(c) => DieShown(w, s, c);
    case SettleOp(c, reported, mirrored) => SettleOpShown(w, s, c, reported, mirrored);
  }

  lemma OpenShown(w: World, s: State, c: nat, ledgered: set<Variant>)
    requires CanOpen(w, s, c) && Shown(s.camps[c])
    ensures Shown(DoOpen(w, s, c, ledgered).camps[c])
  {
  }

  /** Settling a dead run's rows moves neither its status nor its campaign's. */
  lemma SettleOpShown(w: World, s: State, c: nat, reported: set<Variant>, mirrored: bool)
    requires Shaped(w, s) && CanSettleOp(s, c, reported) && Shown(s.camps[c])
    ensures Shown(DoSettleOp(s, c, reported, mirrored).camps[c])
  {
  }

  /** A claim remembers what the campaign showed; a run that closes or stops says how it ended. */
  lemma MovesShown(w: World, s: State, e: Event)
    requires Shaped(w, s) && Enabled(w, s, e) && (e.Claim? || e.Close? || e.StopWriting? || e.Reap?)
    requires Shown(s.camps[e.c]) && ProcessOk(w, s, e.c)
    ensures Shown(Step(w, s, e).camps[e.c])
  {
  }

  lemma ReleaseShown(w: World, s: State, c: nat)
    requires CanRelease(w, s, c) && Shown(s.camps[c]) && ProcessOk(w, s, c)
    ensures Shown(DoRelease(w, s, c).camps[c])
  {
  }

  /** A process that dies leaves its campaign shown as running. */
  lemma DieShown(w: World, s: State, c: nat)
    requires Shaped(w, s) && c < |s.camps| && s.camps[c].process.Some? && Shown(s.camps[c])
    ensures Shown(s.camps[c].(process := None))
  {
  }

  /** Between planning and closing, a step moves neither the campaign's state nor its claim. */
  lemma MidRunShown(w: World, s: State, e: Event)
    requires Shaped(w, s) && Enabled(w, s, e) && Actor(e).Some? && e.c < |s.camps|
    requires e.Write? || e.Refuse? || e.ReadBack? || e.Submit? || e.NoteSubmitted? || e.Collect? || e.RecordRow?
             || e.SettleMirror? || e.FinishRun?
    requires Shown(s.camps[e.c])
    ensures Shown(Step(w, s, e).camps[e.c])
  {
  }

  /** No operation comes back to life. */
  predicate OpsGoOn(s: State, s': State) {
    |s.ops| <= |s'.ops| && forall i: nat :: i < |s.ops| && s.ops[i].done ==> s'.ops[i].done
  }

  lemma RestFrame(w: World, s: State, s': State, c: nat)
    requires Shaped(w, s) && c < |s.camps| && c < |s'.camps| && RunOk(w, s, c) && Rest(s, c)
    requires s'.camps[c] == s.camps[c] && OpsGoOn(s, s')
    ensures Rest(s', c)
  {
  }

  lemma ClaimRest(w: World, s: State, c: nat, kind: Kind, resume: bool)
    requires Shaped(w, s) && CanClaim(s, c, kind) && Rest(s, c)
    ensures Rest(DoClaim(w, s, c, kind, resume), c)
  {
  }

  lemma OpenRest(w: World, s: State, c: nat, ledgered: set<Variant>)
    requires CanOpen(w, s, c) && Rest(s, c)
    ensures Rest(DoOpen(w, s, c, ledgered), c)
  {
    var k' := DoOpen(w, s, c, ledgered).camps[c];
    assert k'.process.Some? ==> forall v :: v in k'.run.value.rows ==> k'.run.value.rows[v].status == Pending;
  }

  lemma NoteRest(w: World, s: State, c: nat)
    requires Shaped(w, s) && CanNote(s, c) && Rest(s, c)
    ensures Rest(DoNoteSubmitted(s, c), c)
  {
    var rows := s.camps[c].run.value.rows;
    var rows' := DoNoteSubmitted(s, c).camps[c].run.value.rows;
    assert forall v :: v in rows ==> v in rows' && rows'[v].status == Writing;
  }

  lemma SubmitRest(w: World, s: State, c: nat)
    requires Shaped(w, s) && CanSubmit(s, c) && Rest(s, c) && RunOk(w, s, c) && ProcessOk(w, s, c)
    ensures Rest(DoSubmit(s, c), c)
  {
  }

  lemma RecordRest(w: World, s: State, c: nat, v: Variant)
    requires Shaped(w, s) && CanRecord(s, c, v) && Rest(s, c) && ProcessOk(w, s, c)
    ensures Rest(DoRecordRow(s, c, v), c)
  {
    var k := s.camps[c];
    assert OwesItsRows(k);
    assert HearingOk(s, c);
  }

  lemma FinishRest(w: World, s: State, c: nat)
    requires Shaped(w, s) && CanFinish(s, c) && Rest(s, c) && ProcessOk(w, s, c)
    ensures Rest(DoFinishRun(s, c), c)
  {
    var k := s.camps[c];
    if CleanRun(k) {
      forall v | v in k.run.value.rows
        ensures Settled(k.run.value.rows[v].status)
      {
        assert HearingOk(s, c) && AllRecorded(k);
      }
      assert k.owed == {};
    }
  }

  lemma CloseRest(w: World, s: State, c: nat)
    requires Shaped(w, s) && CanClose(s, c) && Rest(s, c) && ProcessOk(w, s, c)
    ensures Rest(DoClose(s, c), c)
  {
  }

  lemma LoseCloseRest(w: World, s: State, c: nat)
    requires Shaped(w, s) && CanClose(s, c) && Rest(s, c) && ProcessOk(w, s, c)
    ensures Rest(DoLoseClose(w, s, c), c)
  {
  }

  lemma ReleaseRest(w: World, s: State, c: nat)
    requires CanRelease(w, s, c) && Rest(s, c) && ProcessOk(w, s, c)
    ensures Rest(DoRelease(w, s, c), c)
  {
    var k := s.camps[c];
    if At(k, Claimed) {
      assert ClaimOk(k);
    }
  }

  lemma StopRest(w: World, s: State, c: nat)
    requires Shaped(w, s) && CanStop(s, c) && Rest(s, c)
    ensures Rest(DoStop(s, c), c)
  {
  }

  lemma SettleOpRest(w: World, s: State, c: nat, reported: set<Variant>, mirrored: bool)
    requires Shaped(w, s) && CanSettleOp(s, c, reported) && Rest(s, c) && RunOk(w, s, c)
    ensures Rest(DoSettleOp(s, c, reported, mirrored), c)
  {
    SentIsUnfinished(w, s, c);
    SettledNonePending(s, c, reported, mirrored);
  }

  lemma SentIsUnfinished(w: World, s: State, c: nat)
    requires Shaped(w, s) && c < |s.camps| && Sent(s.camps[c]) && RunOk(w, s, c)
    ensures s.camps[c].run.value.status != RunCompleted
  {
  }

  lemma SettledNonePending(s: State, c: nat, reported: set<Variant>, mirrored: bool)
    requires CanSettleOp(s, c, reported) && NonePending(s.camps[c])
    ensures NonePending(DoSettleOp(s, c, reported, mirrored).camps[c])
  {
  }

  /** The campaign a step acts for; Shopify's own progress acts for none. */
  function Actor(e: Event): Option<nat> {
    if e.OpWrite? || e.OpRefuse? || e.OpEnd? || e.Delete? then None else Some(e.c)
  }

  lemma OthersStay(w: World, s: State, e: Event, c: nat)
    requires Enabled(w, s, e) && c < |s.camps| && Actor(e) != Some(c)
    ensures c < |Step(w, s, e).camps| && Step(w, s, e).camps[c] == s.camps[c]
  {
  }

  lemma OpsKeepOn(w: World, s: State, e: Event)
    requires Enabled(w, s, e)
    ensures OpsGoOn(s, Step(w, s, e))
  {
  }

  /** A claim, a ledger, a submission. */
  lemma StartRests(w: World, s: State, e: Event)
    requires Shaped(w, s) && Enabled(w, s, e)
    requires e.Claim? || e.Open? || e.Submit? || e.NoteSubmitted? || e.Die?
    requires Rest(s, e.c) && RunOk(w, s, e.c) && ProcessOk(w, s, e.c)
    ensures Rest(Step(w, s, e), e.c)
  {
    match e
    case Claim(d, kind, resume) => ClaimRest(w, s, d, kind, resume);
    case Open(d, ledgered) => OpenRest(w, s, d, ledgered);
    case NoteSubmitted(d) => NoteRest(w, s, d);
    case Submit(d) => SubmitRest(w, s, d);
    case _ =>
  }

  lemma RecordingRests(w: World, s: State, e: Event)
    requires Shaped(w, s) && Enabled(w, s, e)
    requires e.RecordRow? || e.SettleMirror?
    requires Rest(s, e.c) && ProcessOk(w, s, e.c)
    ensures Rest(Step(w, s, e), e.c)
  {
    match e
    case RecordRow(d, v) => RecordRest(w, s, d, v);
    case SettleMirror(d) => SettleMirrorRest(w, s, d);
  }

  lemma SendRests(w: World, s: State, e: Event)
    requires Shaped(w, s) && Enabled(w, s, e) && (e.Write? || e.Refuse? || e.ReadBack? || e.Collect?)
    requires Rest(s, e.c) && ProcessOk(w, s, e.c)
    ensures Rest(Step(w, s, e), e.c)
  {
    if e.Write? || e.Refuse? {
      WriteRests(w, s, e);
    } else {
      match e
      case ReadBack(d, v) => HearRest(w, s, DoReadBack(s, d, v), d);
      case Collect(d, reported) => HearRest(w, s, DoCollect(s, d, reported), d);
    }
  }

  lemma WriteRests(w: World, s: State, e: Event)
    requires Shaped(w, s) && Enabled(w, s, e) && (e.Write? || e.Refuse?)
    requires Rest(s, e.c) && ProcessOk(w, s, e.c)
    ensures Rest(Step(w, s, e), e.c)
  {
    match e
    case Write(d, v) => HearRest(w, s, DoWrite(s, d, v), d);
    case Refuse(d, v, landed) => HearRest(w, s, DoRefuse(s, d, v, landed), d);
  }

  lemma SettleMirrorRest(w: World, s: State, c: nat)
    requires Shaped(w, s) && CanSettleMirror(s, c) && Rest(s, c)
    ensures Rest(DoSettleMirror(s, c), c)
  {
  }

  lemma EndRests(w: World, s: State, e: Event)
    requires Shaped(w, s) && Enabled(w, s, e)
    requires e.FinishRun? || e.Close? || e.LoseClose? || e.Release? || e.StopWriting? || e.Reap? || e.SettleOp?
    requires Rest(s, e.c) && RunOk(w, s, e.c) && ProcessOk(w, s, e.c)
    ensures Rest(Step(w, s, e), e.c)
  {
    if e.FinishRun? || e.Close? || e.LoseClose? {
      CloseRests(w, s, e);
    } else {
      StopRests(w, s, e);
    }
  }

  lemma CloseRests(w: World, s: State, e: Event)
    requires Shaped(w, s) && Enabled(w, s, e) && (e.FinishRun? || e.Close? || e.LoseClose?)
    requires Rest(s, e.c) && RunOk(w, s, e.c) && ProcessOk(w, s, e.c)
    ensures Rest(Step(w, s, e), e.c)
  {
    match e
    case FinishRun(d) => FinishRest(w, s, d);
    case Close(d) => CloseRest(w, s, d);
    case LoseClose(d) => LoseCloseRest(w, s, d);
  }

  lemma StopRests(w: World, s: State, e: Event)
    requires Shaped(w, s) && Enabled(w, s, e) && (e.Release? || e.StopWriting? || e.Reap? || e.SettleOp?)
    requires Rest(s, e.c) && RunOk(w, s, e.c) && ProcessOk(w, s, e.c)
    ensures Rest(Step(w, s, e), e.c)
  {
    match e
    case Release(d) => ReleaseRest(w, s, d);
    case StopWriting(d) => StopRest(w, s, d);
    case Reap(d) => StopRest(w, s, d);
    case SettleOp(d, reported, mirrored) => SettleOpRest(w, s, d, reported, mirrored);
  }

  lemma HearRest(w: World, s: State, s': State, c: nat)
    requires Shaped(w, s) && c < |s.camps| && c < |s'.camps| && Rest(s, c) && ProcessOk(w, s, c)
    requires (At(s.camps[c], Opened) || At(s.camps[c], Sending)) && At(s'.camps[c], Sending)
    requires s'.camps[c] == s.camps[c].(process := s'.camps[c].process) && s'.ops == s.ops
    ensures Rest(s', c)
  {
  }

  lemma StepRest(w: World, s: State, e: Event)
    requires Inv(w, s) && Rests(s) && Enabled(w, s, e)
    ensures Rests(Step(w, s, e))
  {
    var s' := Step(w, s, e);
    OpsKeepOn(w, s, e);
    forall c: nat | c < |s'.camps|
      ensures Rest(s', c)
    {
      assert RunOk(w, s, c) && ProcessOk(w, s, c) by {
        assert CampOk(w, s, c);
      }
      assert Rest(s, c);
      CampRests(w, s, e, c);
    }
  }

  lemma CampRests(w: World, s: State, e: Event, c: nat)
    requires Shaped(w, s) && Enabled(w, s, e) && c < |s.camps| && OpsGoOn(s, Step(w, s, e))
    requires Rest(s, c) && RunOk(w, s, c) && ProcessOk(w, s, c)
    ensures c < |Step(w, s, e).camps| && Rest(Step(w, s, e), c)
  {
    if Actor(e) != Some(c) {
      OthersStay(w, s, e, c);
      RestFrame(w, s, Step(w, s, e), c);
    } else {
      ActorRests(w, s, e);
    }
  }

  lemma ActorRests(w: World, s: State, e: Event)
    requires Shaped(w, s) && Enabled(w, s, e) && Actor(e).Some? && e.c < |s.camps|
    requires Rest(s, e.c) && RunOk(w, s, e.c) && ProcessOk(w, s, e.c)
    ensures Rest(Step(w, s, e), e.c)
  {
    if e.Claim? || e.Open? || e.Submit? || e.NoteSubmitted? || e.Die? {
      StartRests(w, s, e);
    } else if e.Write? || e.Refuse? || e.ReadBack? || e.Collect? {
      SendRests(w, s, e);
    } else if e.RecordRow? || e.SettleMirror? {
      RecordingRests(w, s, e);
    } else {
      EndRests(w, s, e);
    }
  }
}
