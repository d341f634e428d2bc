/** What the campaign protocol promises, over every run of it. */
module ProtocolTheorems {
  import opened Wrappers
  import opened Ledger
  import opened Protocol
  import opened ProtocolInvariant
  import opened ProtocolFrame
  import opened ProtocolSteps
  import opened ProtocolSends
  import opened ProtocolRecords
  import opened ProtocolEnds
  import opened ProtocolBulk

  lemma {:induction false} NobodyWins(w: World, v: Variant, n: nat)
    requires n <= |w.defs|
    ensures Winner(w, {}, v, n) == None
  {
    if n > 0 {
      NobodyWins(w, v, n - 1);
    }
  }

  lemma FreshOk(w: World, s: State)
    requires Fresh(w, s)
    ensures Inv(w, s)
  {
    assert forall c: nat :: c < |s.camps| ==> s.camps[c] in s.camps;
    assert Pricing(s) == {};
    forall c: nat | c < |s.camps|
      ensures CampOk(w, s, c) && !Busy(s, c)
    {
      assert s.camps[c] in s.camps;
    }
    forall v: Variant
      ensures MirrorOk(s, v) && PriceOk(w, s, v)
    {
      NobodyWins(w, v, |w.defs|);
    }
  }

  lemma DeleteKeeps(w: World, s: State, v: Variant)
    requires Inv(w, s) && v in s.live
    ensures Inv(w, s.(live := s.live - {v}))
  {
    var s' := s.(live := s.live - {v});
    assert Pricing(s') == Pricing(s);
    forall c: nat | c < |s.camps|
      ensures CampOk(w, s', c)
    {
      assert CampOk(w, s, c);
      DeleteCamp(w, s, v, c);
    }
    forall i: nat | i < |s.ops|
      ensures OpOk(w, s', i)
    {
      assert OpOk(w, s, i);
      DeleteOp(w, s, v, i);
    }
    forall c: nat | c < |s.camps|
      ensures Busy(s', c) == Busy(s, c)
    {
      assert OpRunning(s', c) == OpRunning(s, c);
    }
    forall u: Variant
      ensures MirrorOk(s', u) && PriceOk(w, s', u)
    {
      assert MirrorOk(s, u) && PriceOk(w, s, u);
      DeleteVariant(w, s, v, u);
    }
  }

  lemma DeleteVariant(w: World, s: State, v: Variant, u: Variant)
    requires Shaped(w, s) && MirrorOk(s, u) && PriceOk(w, s, u)
    ensures MirrorOk(s.(live := s.live - {v}), u) && PriceOk(w, s.(live := s.live - {v}), u)
  {
    var s' := s.(live := s.live - {v});
    assert Pricing(s') == Pricing(s);
    if u != v {
      VariantKeeps(w, s, s', u);
    }
  }

  lemma DeleteOp(w: World, s: State, v: Variant, i: nat)
    requires Shaped(w, s) && i < |s.ops| && OpOk(w, s, i)
    ensures OpOk(w, s.(live := s.live - {v}), i)
  {
    var s' := s.(live := s.live - {v});
    assert HoldsLatest(s', i) == HoldsLatest(s, i);
    if !s.ops[i].done {
      assert HoldsRun(s', s.ops[i].owner, i);
    }
  }

  lemma DeleteCamp(w: World, s: State, v: Variant, c: nat)
    requires Shaped(w, s) && c < |s.camps| && CampOk(w, s, c)
    ensures CampOk(w, s.(live := s.live - {v}), c)
  {
    var s' := s.(live := s.live - {v});
    var k := s.camps[c];
    assert Pricing(s') == Pricing(s);
    assert OpRunning(s', c) == OpRunning(s, c);
    if k.run.Some? {
      forall u | u in k.run.value.rows
        ensures RowOk(s', k.run.value.rows[u], u)
      {
        assert RowOk(s, k.run.value.rows[u], u);
      }
      if k.run.value.op.Some? {
        assert HoldsRun(s', c, k.run.value.op.value);
      }
    }
    if k.process.Some? && (At(k, Claimed) || At(k, Opened)) {
      var b := k.process.value.before;
      forall u | u in w.defs[c].scope && u in s'.live && u !in b.owed && NoOneElseOwes(s', c, u)
        ensures Shows(w, s', With(Pricing(s'), c, b.prices), u)
      {
        assert NoOneElseOwes(s, c, u);
      }
    }
    if k.process.Some? && k.process.value.op.Some? && HoldsRun(s, c, k.process.value.op.value) {
      assert HoldsRun(s', c, k.process.value.op.value);
    }
  }

  /** Every step keeps the invariant, as long as a claim is taken only when its campaign is clear. */
  lemma StepKeeps(w: World, s: State, e: Event)
    requires Inv(w, s) && Enabled(w, s, e) && Clear(w, s, e)
    ensures Inv(w, Step(w, s, e))
  {
    match e
    case Claim(c, kind, resume) => ClaimKeeps(w, s, c, kind, resume);
    case Open(c, ledgered) => OpenKeeps(w, s, c, ledgered);
    case Write(c, v) => WriteKeeps(w, s, c, v);
    case Refuse(c, v, landed) => RefuseKeeps(w, s, c, v, landed);
    case ReadBack(c, v) => ReadBackKeeps(w, s, c, v);
    case Submit(c) => SubmitKeeps(w, s, c);
    case NoteSubmitted(c) => NoteSubmittedKeeps(w, s, c);
    case Collect(c, reported) => CollectKeeps(w, s, c, reported);
    case RecordRow(c, v) => RecordRowKeeps(w, s, c, v);
    case SettleMirror(c) => SettleMirrorKeeps(w, s, c);
    case FinishRun(c) => FinishRunKeeps(w, s, c);
    case Close(c) => CloseKeeps(w, s, c);
    case Release(c) => ReleaseKeeps(w, s, c);
    case StopWriting(c) => StopKeeps(w, s, c);
    case LoseClose(c) => LoseCloseKeeps(w, s, c);
    case Die(c) => DieKeeps(w, s, c);
    case Reap(c) => StopKeeps(w, s, c);
    case SettleOp(c, reported, mirrored) => SettleOpKeeps(w, s, c, reported, mirrored);
    case OpWrite(i, v) => OpWriteKeeps(w, s, i, v);
    case OpRefuse(i, v) => OpRefuseKeeps(w, s, i, v);
    case OpEnd(i) => OpEndKeeps(w, s, i);
    case Delete(v) => DeleteKeeps(w, s, v);
  }

  /** A run whose every claim was clear when it was taken. */
  predicate ClearRuns(w: World, s: State, es: seq<Event>)
    decreases |es|
  {
    es == [] ||
    (Enabled(w, s, es[0]) && Clear(w, s, es[0]) && ClearRuns(w, Step(w, s, es[0]), es[1..]))
  }

  lemma {:induction false} ClearRunsKeep(w: World, s: State, es: seq<Event>)
    requires Inv(w, s) && ClearRuns(w, s, es)
    ensures Runs(w, s, es) && Inv(w, After(w, s, es))
    decreases |es|
  {
    if es != [] {
      StepKeeps(w, s, es[0]);
      ClearRunsKeep(w, Step(w, s, es[0]), es[1..]);
    }
  }
}
