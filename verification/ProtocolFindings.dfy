/**
 * Where the engine falls short of a promise: for each, the states from which it happens and the
 * steps that lead there. The theorems elsewhere show it cannot happen from any other.
 */
module ProtocolFindings {
  import opened Wrappers
  import opened Lifecycle
  import opened Ledger
  import opened Protocol
  import opened ProtocolInvariant
  import opened ProtocolRest
  import opened ProtocolPromises
  import opened ProtocolAnswers
  import opened ProtocolWholeRuns

  // ------------------------------------------------ one row, from sent to closed

  /** Campaign `c` is about to send, and `v` is one of its rows. */
  predicate AboutToSend(s: State, c: nat, v: Variant) {
    c < |s.camps| && At(s.camps[c], Opened) && LiveRun(s.camps[c]) && s.camps[c].process.value.op.None?
    && s.camps[c].process.value.heard == map[]
    && v in s.camps[c].run.value.rows && s.camps[c].run.value.rows[v].status == Pending && v in s.live
  }

  /** Row `v` of campaign `c` sent, read back, recorded, and the run closed over it. */
  function OneRow(c: nat, v: Variant): seq<Event> {
    [Write(c, v), ReadBack(c, v)] + [RecordRow(c, v), SettleMirror(c)] + [FinishRun(c), Close(c)]
  }

  /** What sending row `v` and closing leaves: the price live, the row settled, everyone else as they were. */
  ghost predicate SentAndClosed(s: State, s': State, c: nat, v: Variant)
    requires AboutToSend(s, c, v)
  {
    var k, price := s.camps[c], s.camps[c].run.value.rows[v].intended;
    && |s'.camps| == |s.camps| && s'.ops == s.ops && s'.live == s.live[v := price]
    && (v in s'.mirror ==> s'.mirror[v] == price)
    && (forall d: nat :: d < |s.camps| && d != c ==> s'.camps[d] == s.camps[d])
    && s'.camps[c].process.None? && s'.camps[c].run.Some?
    && s'.camps[c].run.value.kind == k.run.value.kind
    && (s'.camps[c].run.value.status == RunCompleted || s'.camps[c].run.value.status == RunPartial)
    && s'.camps[c].status == FinalState(k.process.value.kind, s'.camps[c].run.value.status == RunCompleted)
    && s'.camps[c].run.value.rows.Keys == k.run.value.rows.Keys
    && Landed(s'.camps[c].run.value.rows[v].status)
    && (k.run.value.rows.Keys == {v} ==> s'.camps[c].run.value.status == RunCompleted)
  }

  lemma SendAndRead(s: State, c: nat, v: Variant)
    requires AboutToSend(s, c, v)
    ensures CanSend(s, c, v) && CanReadBack(DoWrite(s, c, v), c, v)
    ensures var s' := DoReadBack(DoWrite(s, c, v), c, v);
            var k, price := s.camps[c], s.camps[c].run.value.rows[v].intended;
            && s'.camps == s.camps[c := k.(process := Some(k.process.value.(phase := Sending, heard := map[v := Confirmed(price)])))]
            && s'.live == s.live[v := price] && s'.mirror == s.mirror && s'.ops == s.ops
  {
    var k, price := s.camps[c], s.camps[c].run.value.rows[v].intended;
    var s' := DoReadBack(DoWrite(s, c, v), c, v);
    assert s'.camps[c].process.value.heard == map[v := Confirmed(price)];
    assert s'.camps == s.camps[c := s'.camps[c]];
  }

  lemma RecordAndSettle(s: State, c: nat, v: Variant, price: Price)
    requires c < |s.camps| && At(s.camps[c], Sending) && LiveRun(s.camps[c]) && s.camps[c].process.value.op.None?
    requires s.camps[c].process.value.heard == map[v := Confirmed(price)]
    requires v in s.camps[c].run.value.rows && Waiting(s.camps[c].run.value.rows[v].status)
    requires s.camps[c].run.value.rows[v].intended == price
    ensures CanRecord(s, c, v) && CanSettleMirror(DoRecordRow(s, c, v), c)
    ensures var s' := DoSettleMirror(DoRecordRow(s, c, v), c);
            && |s'.camps| == |s.camps| && s'.live == s.live && s'.ops == s.ops
            && (forall d: nat :: d < |s.camps| && d != c ==> s'.camps[d] == s.camps[d])
            && At(s'.camps[c], MirrorSettled) && s'.camps[c].status == s.camps[c].status
            && s'.camps[c].process.value == s.camps[c].process.value.(phase := MirrorSettled)
            && s'.camps[c].run.Some? && s'.camps[c].run.value == s.camps[c].run.value.(rows := s'.camps[c].run.value.rows)
            && s'.camps[c].run.value.rows.Keys == s.camps[c].run.value.rows.Keys
            && Landed(s'.camps[c].run.value.rows[v].status)
            && (v in s'.mirror ==> s'.mirror[v] == price)
  {
    var s1 := DoRecordRow(s, c, v);
    var rows := s1.camps[c].run.value.rows;
    assert rows == s.camps[c].run.value.rows[v := rows[v]];
    assert Landed(rows[v].status);
  }

  lemma FinishAndClose(s: State, c: nat, v: Variant)
    requires c < |s.camps| && At(s.camps[c], MirrorSettled) && LiveRun(s.camps[c])
    requires s.camps[c].process.value.heard.Keys == {v} && s.camps[c].process.value.heard[v].Confirmed?
    ensures CanFinish(s, c) && CanClose(DoFinishRun(s, c), c)
    ensures var s' := DoClose(DoFinishRun(s, c), c);
            && s' == s.(camps := s.camps[c := s'.camps[c]])
            && s'.camps[c].process.None? && s'.camps[c].run.Some?
            && (s'.camps[c].run.value.status == RunCompleted || s'.camps[c].run.value.status == RunPartial)
            && s'.camps[c].run.value == s.camps[c].run.value.(status := s'.camps[c].run.value.status)
            && s'.camps[c].status == FinalState(s.camps[c].process.value.kind, s'.camps[c].run.value.status == RunCompleted)
            && (s.camps[c].run.value.rows.Keys == {v} ==> s'.camps[c].run.value.status == RunCompleted)
  {
  }

  lemma SendAndClose(w: World, s: State, c: nat, v: Variant)
    requires Shaped(w, s) && AboutToSend(s, c, v)
    ensures Runs(w, s, OneRow(c, v)) && SentAndClosed(s, After(w, s, OneRow(c, v)), c, v)
  {
    var s2, s4, s6 := OneRowEnds(s, c, v);
    OneRowRuns(w, s, s2, s4, s6, c, v);
  }

  lemma OneRowEnds(s: State, c: nat, v: Variant) returns (s2: State, s4: State, s6: State)
    requires AboutToSend(s, c, v)
    ensures CanSend(s, c, v) && CanReadBack(DoWrite(s, c, v), c, v) && s2 == DoReadBack(DoWrite(s, c, v), c, v)
    ensures CanRecord(s2, c, v) && CanSettleMirror(DoRecordRow(s2, c, v), c)
    ensures s4 == DoSettleMirror(DoRecordRow(s2, c, v), c) && |s2.camps| == |s4.camps| == |s.camps|
    ensures CanFinish(s4, c) && CanClose(DoFinishRun(s4, c), c) && s6 == DoClose(DoFinishRun(s4, c), c)
    ensures SentAndClosed(s, s6, c, v)
  {
    SendAndRead(s, c, v);
    s2 := DoReadBack(DoWrite(s, c, v), c, v);
    RecordAndSettle(s2, c, v, s.camps[c].run.value.rows[v].intended);
    s4 := DoSettleMirror(DoRecordRow(s2, c, v), c);
    FinishAndClose(s4, c, v);
    s6 := DoClose(DoFinishRun(s4, c), c);
  }

  lemma OneRowRuns(w: World, s: State, s2: State, s4: State, s6: State, c: nat, v: Variant)
    requires Shaped(w, s) && Shaped(w, s2) && Shaped(w, s4)
    requires CanSend(s, c, v) && CanReadBack(DoWrite(s, c, v), c, v) && s2 == DoReadBack(DoWrite(s, c, v), c, v)
    requires CanRecord(s2, c, v) && CanSettleMirror(DoRecordRow(s2, c, v), c)
    requires s4 == DoSettleMirror(DoRecordRow(s2, c, v), c)
    requires CanFinish(s4, c) && CanClose(DoFinishRun(s4, c), c) && s6 == DoClose(DoFinishRun(s4, c), c)
    ensures Runs(w, s, OneRow(c, v)) && After(w, s, OneRow(c, v)) == s6
  {
    RunsPair(w, s, Write(c, v), ReadBack(c, v));
    RunsPair(w, s2, RecordRow(c, v), SettleMirror(c));
    RunsPair(w, s4, FinishRun(c), Close(c));
    AfterConcat(w, s, [Write(c, v), ReadBack(c, v)], [RecordRow(c, v), SettleMirror(c)]);
    AfterConcat(w, s, [Write(c, v), ReadBack(c, v)] + [RecordRow(c, v), SettleMirror(c)], [FinishRun(c), Close(c)]);
  }

  // ---------------------------------------------------- two runs over one variant

  /**
   * Nothing in the code asks about another campaign's run. When `d` is claimed while `c` has still
   * to write a variant both price, and `d`'s plan wants another price there, `d` may finish first:
   * both end with the row verified, and the variant shows what `c` wrote, not what resolution says.
   */
  lemma OverlapLosesThePrice(w: World, s: State, c: nat, d: nat, v: Variant)
    requires Shaped(w, s) && d < |s.camps| && d != c && AboutToSend(s, c, v)
    requires s.camps[c].process.value.kind == Apply && s.camps[c].run.value.kind == Apply && Prices(s.camps[c])
    requires CanClaim(s, d, Apply) && v in w.defs[d].scope && v in w.defs[c].scope
    requires !Stopped(w, DoClaim(w, s, d, Apply, false), d)
    requires Wanted(w, With(Pricing(s), d, true), s.mirror, v)
    requires Target(w, With(Pricing(s), d, true), v).price != s.camps[c].run.value.rows[v].intended
    ensures !Clear(w, s, Claim(d, Apply, false))
    ensures var es := ClaimAndOpen(w, d, Apply, false) + OneRow(d, v) + OneRow(c, v);
            Runs(w, s, es) &&
            var a := After(w, s, es);
            && Shaped(w, a) && v in a.live && Decided(a.camps[c], v) && Decided(a.camps[d], v)
            && Target(w, Pricing(a), v).Priced? && a.live[v] != Target(w, Pricing(a), v).price
  {
    UnclearOverlap(w, s, c, d, v);
    OtherFinishesFirst(w, s, c, d, v);
    var s3 := After(w, s, ClaimAndOpen(w, d, Apply, false) + OneRow(d, v));
    SendAndClose(w, s3, c, v);
    var a := After(w, s3, OneRow(c, v));
    AfterConcat(w, s, ClaimAndOpen(w, d, Apply, false) + OneRow(d, v), OneRow(c, v));
    BothPriced(w, s, s3, a, c, d, v);
    assert With(With(Pricing(s), d, true), c, true) == With(Pricing(s), d, true);
  }

  /** `d` runs from claim to close over row `v` while `c` waits to send it. */
  lemma OtherFinishesFirst(w: World, s: State, c: nat, d: nat, v: Variant)
    requires Shaped(w, s) && d < |s.camps| && d != c && AboutToSend(s, c, v)
    requires CanClaim(s, d, Apply) && v in w.defs[d].scope
    requires !Stopped(w, DoClaim(w, s, d, Apply, false), d)
    requires Wanted(w, With(Pricing(s), d, true), s.mirror, v)
    ensures Runs(w, s, ClaimAndOpen(w, d, Apply, false) + OneRow(d, v))
    ensures var a := After(w, s, ClaimAndOpen(w, d, Apply, false) + OneRow(d, v));
            && |a.camps| == |s.camps| && (forall e: nat :: e < |s.camps| && e != d ==> a.camps[e] == s.camps[e])
            && Finished(a.camps[d], v) && AboutToSend(a, c, v)
  {
    var s1 := DoClaim(w, s, d, Apply, false);
    var s2 := Opens(w, s, d, Apply, false);
    OpensRuns(w, s, d, Apply, false);
    assert With(Pricing(s1), d, true) == With(Pricing(s), d, true);
    assert AboutToSend(s2, d, v);
    SendAndClose(w, s2, d, v);
    AfterConcat(w, s, ClaimAndOpen(w, d, Apply, false), OneRow(d, v));
  }

  lemma UnclearOverlap(w: World, s: State, c: nat, d: nat, v: Variant)
    requires Shaped(w, s) && c < |s.camps| && d < |s.camps| && d != c && s.camps[c].process.Some?
    requires v in w.defs[d].scope && v in w.defs[c].scope
    ensures !Clear(w, s, Claim(d, Apply, false))
  {
    assert Busy(s, c) && !Disjoint(w, d, c);
  }

  /** Both runs over, each campaign still prices and has settled the row. */
  lemma BothPriced(w: World, s: State, s3: State, a: State, c: nat, d: nat, v: Variant)
    requires Shaped(w, s) && |s3.camps| == |s.camps| && |a.camps| == |s.camps| && c < |s.camps| && d < |s.camps| && c != d
    requires forall e: nat :: e < |s.camps| && e != c && e != d ==> a.camps[e] == s.camps[e]
    requires a.camps[d] == s3.camps[d]
    requires Finished(a.camps[c], v) && Finished(a.camps[d], v)
    ensures Pricing(a) == With(With(Pricing(s), d, true), c, true)
    ensures Decided(a.camps[c], v) && Decided(a.camps[d], v)
  {
    PricesAfterApply(a.camps[c]);
    PricesAfterApply(a.camps[d]);
  }

  /** An apply that is over, with row `v` landed. */
  predicate Finished(k: Camp, v: Variant) {
    && k.process.None? && k.run.Some? && k.run.value.kind == Apply
    && (k.run.value.status == RunCompleted || k.run.value.status == RunPartial)
    && k.status == FinalState(Apply, k.run.value.status == RunCompleted)
    && v in k.run.value.rows && Landed(k.run.value.rows[v].status)
  }

  lemma PricesAfterApply(k: Camp)
    requires k.run.Some? && k.run.value.kind == Apply
    requires k.status == FinalState(Apply, k.run.value.status == RunCompleted)
    ensures Prices(k)
  {
  }

  // ------------------------------------------------- accepted and never recorded

  /**
   * A process killed between Shopify accepting its bulk operation and the ledger recording it
   * leaves the campaign free to be resumed while the operation runs: the same row goes out twice.
   */
  lemma KilledBeforeRecordingSendsTwice(w: World, s: State, c: nat, v: Variant)
    requires Shaped(w, s) && AboutToSend(s, c, v) && v in w.defs[c].scope
    requires s.camps[c].run.value.kind == Apply && Prices(s.camps[c]) && s.camps[c].run.value.op.None?
    requires Target(w, With(Pricing(s), c, true), v).Priced?
    requires forall u :: u in w.defs[c].scope ==> !Target(w, With(Pricing(s), c, true), u).Blocks?
    requires forall u :: u in s.camps[c].run.value.rows ==> s.camps[c].run.value.rows[u].status == Pending
    requires s.camps[c].run.value.rows[v].attempt == 0
    ensures var es := [Submit(c), Die(c)] + [Reap(c)] + (ClaimAndOpen(w, c, Apply, true) + [Submit(c)]);
            Runs(w, s, es) &&
            var a := After(w, s, es);
            && |a.ops| == |s.ops| + 2
            && Unfinished(a, |s.ops|, c, v) && Unfinished(a, |s.ops| + 1, c, v)
  {
    KilledAndReaped(w, s, c, v);
    var s3 := After(w, s, [Submit(c), Die(c)] + [Reap(c)]);
    assert With(Pricing(s3), c, true) == With(Pricing(s), c, true);
    ResumedAndSent(w, s3, c, v);
    AfterConcat(w, s, [Submit(c), Die(c)] + [Reap(c)], ClaimAndOpen(w, c, Apply, true) + [Submit(c)]);
  }

  /** Operation `i` of campaign `c` is running and has still to write `v`. */
  predicate Unfinished(s: State, i: nat, c: nat, v: Variant) {
    i < |s.ops| && s.ops[i].owner == c && !s.ops[i].done && v in s.ops[i].left
  }

  /** A new apply can be claimed, and its ledger holds `v` as a row never tried. */
  predicate Resumable(s: State, c: nat, v: Variant) {
    && CanClaim(s, c, Apply) && v !in s.mirror && s.camps[c].run.Some? && v in s.camps[c].run.value.rows
    && s.camps[c].run.value.rows[v].status == Pending && s.camps[c].run.value.rows[v].attempt == 0
  }

  lemma KilledAndReaped(w: World, s: State, c: nat, v: Variant)
    requires Shaped(w, s) && AboutToSend(s, c, v)
    requires s.camps[c].run.value.kind == Apply && s.camps[c].run.value.op.None?
    requires forall u :: u in s.camps[c].run.value.rows ==> s.camps[c].run.value.rows[u].status == Pending
    requires s.camps[c].run.value.rows[v].attempt == 0
    ensures Runs(w, s, [Submit(c), Die(c)] + [Reap(c)])
    ensures var a := After(w, s, [Submit(c), Die(c)] + [Reap(c)]);
            && |a.camps| == |s.camps| && Resumable(a, c, v)
            && (forall d: nat :: d < |s.camps| && d != c ==> a.camps[d] == s.camps[d])
            && |a.ops| == |s.ops| + 1 && Unfinished(a, |s.ops|, c, v)
  {
    var s1 := DoSubmit(s, c);
    var s2 := SetCamp(s1, c, s1.camps[c].(process := None));
    KilledUnrecorded(s, c, v);
    RunsPair(w, s, Submit(c), Die(c));
    AfterAppend(w, s, [Submit(c), Die(c)], Reap(c));
  }

  /** Killed between submitting and recording, then reclaimed. */
  lemma KilledUnrecorded(s: State, c: nat, v: Variant)
    requires AboutToSend(s, c, v) && s.camps[c].run.value.op.None?
    requires forall u :: u in s.camps[c].run.value.rows ==> s.camps[c].run.value.rows[u].status == Pending
    requires s.camps[c].run.value.rows[v].attempt == 0
    ensures CanSubmit(s, c) && DoSubmit(s, c).camps[c].process.Some?
    ensures var s1 := DoSubmit(s, c);
            var s2 := SetCamp(s1, c, s1.camps[c].(process := None));
            && CanStop(s2, c) && s2.camps[c].process.None? &&
            var a := DoStop(s2, c);
            && |a.camps| == |s.camps| && Resumable(a, c, v)
            && (forall d: nat :: d < |s.camps| && d != c ==> a.camps[d] == s.camps[d])
            && |a.ops| == |s.ops| + 1 && Unfinished(a, |s.ops|, c, v)
  {
    var s1 := DoSubmit(s, c);
    var s2 := SetCamp(s1, c, s1.camps[c].(process := None));
    ReapedUnrecorded(s2, c, v);
  }

  lemma ResumePlansIt(w: World, s: State, c: nat, v: Variant)
    requires Shaped(w, s) && Resumable(s, c, v) && v in w.defs[c].scope
    requires Target(w, With(Pricing(s), c, true), v).Priced?
    requires forall u :: u in w.defs[c].scope ==> !Target(w, With(Pricing(s), c, true), u).Blocks?
    ensures CanClaim(s, c, Apply) && !Stopped(w, DoClaim(w, s, c, Apply, true), c)
    ensures v in Plan(w, DoClaim(w, s, c, Apply, true), c)
  {
    assert With(Pricing(DoClaim(w, s, c, Apply, true)), c, true) == With(Pricing(s), c, true);
  }

  lemma ResumedAndSent(w: World, s: State, c: nat, v: Variant)
    requires Shaped(w, s) && Resumable(s, c, v) && v in w.defs[c].scope
    requires Target(w, With(Pricing(s), c, true), v).Priced?
    requires forall u :: u in w.defs[c].scope ==> !Target(w, With(Pricing(s), c, true), u).Blocks?
    ensures Runs(w, s, ClaimAndOpen(w, c, Apply, true) + [Submit(c)])
    ensures var a := After(w, s, ClaimAndOpen(w, c, Apply, true) + [Submit(c)]);
            && |a.ops| == |s.ops| + 1 && (forall i :: 0 <= i < |s.ops| ==> a.ops[i] == s.ops[i])
            && Unfinished(a, |s.ops|, c, v)
  {
    ResumePlansIt(w, s, c, v);
    OpensRuns(w, s, c, Apply, true);
    assert v in Opens(w, s, c, Apply, true).camps[c].run.value.rows;
    AfterAppend(w, s, ClaimAndOpen(w, c, Apply, true), Submit(c));
  }

  lemma ReapedUnrecorded(s: State, c: nat, v: Variant)
    requires CanStop(s, c) && s.camps[c].process.None? && s.camps[c].run.value.op.None?
    requires v in s.camps[c].run.value.rows
    requires forall u :: u in s.camps[c].run.value.rows ==> s.camps[c].run.value.rows[u].status == Pending
    ensures var s' := DoStop(s, c);
            && CanClaim(s', c, Apply) && v !in s'.mirror && s'.ops == s.ops && s'.camps[c].run.value.kind == s.camps[c].run.value.kind
            && s'.camps[c].run.value.rows == s.camps[c].run.value.rows && s'.camps[c].status == Partial
  {
    var run := s.camps[c].run.value;
    assert Reclaimed(run).rows == run.rows;
  }

  // ---------------------------------------------- which overlaps do harm, whole runs

  /** `d` runs from its claim to its close while `c` has planned and sent nothing; then `c` goes on. */
  ghost function Overlap(w: World, s: State, c: nat, d: nat, kind: Kind): seq<Event>
    requires ReadyToSend(s, c) && d < |w.defs|
  {
    CleanRunOf(w, s, d, kind) + WholeRun(s.live.Keys, c, Listed(RowsOf(s, c).Keys))
  }

  /** `c` holds a claim of the kind its run is of, and is shown so. */
  predicate ClaimsAsItRuns(k: Camp) {
    k.process.Some? && k.run.Some? && k.run.value.kind == k.process.value.kind && k.status == ClaimState(k.run.value.kind)
  }

  /** The price `c` has planned for `v`, if it has, is the one `v` is to have once `d`'s claim counts. */
  predicate PlannedAlike(w: World, s: State, c: nat, p: set<nat>, v: Variant)
    requires ReadyToSend(s, c)
  {
    v in RowsOf(s, c) && Target(w, p, v).Priced? ==> RowsOf(s, c)[v].intended == Target(w, p, v).price
  }

  /**
   * A claim taken over variants another campaign has planned and not sent: both runs end clean and
   * are shown so, whatever they cover, and a variant of the new claim's shows the wrong price exactly
   * when the ledger already written plans another price for it than resolution gives with the claim.
   */
  lemma OverlapHarmsExactly(w: World, s: State, c: nat, d: nat, kind: Kind)
    requires Shaped(w, s) && c != d && ReadyToSend(s, c) && ClaimsAsItRuns(s.camps[c])
    requires CanClaim(s, d, kind) && NothingBlocks(w, s, d, kind) && MirrorRight(w, s, d)
    ensures Runs(w, s, Overlap(w, s, c, d, kind))
    ensures var a, p := After(w, s, Overlap(w, s, c, d, kind)), With(Pricing(s), d, kind == Apply);
            && |a.camps| == |s.camps| && AtRest(a.camps[c]) && AtRest(a.camps[d]) && Pricing(a) == p
            && forall v :: v in w.defs[d].scope && v in a.live ==> (Shows(w, a, p, v) <==> PlannedAlike(w, s, c, p, v))
  {
    RunsCleanly(w, s, d, kind);
    var s1 := After(w, s, CleanRunOf(w, s, d, kind));
    assert s1.camps[c] == s.camps[c] && s1.live.Keys == s.live.Keys;
    RunsWhole(w, s1, c);
    var a := After(w, s1, WholeRun(s1.live.Keys, c, Listed(RowsOf(s1, c).Keys)));
    AfterConcat(w, s, CleanRunOf(w, s, d, kind), WholeRun(s.live.Keys, c, Listed(RowsOf(s, c).Keys)));
    OverlapRests(w, s, s1, a, c, d, kind);
    OverlapShows(w, s, s1, a, c, d, kind);
  }

  lemma OverlapRests(w: World, s: State, s1: State, a: State, c: nat, d: nat, kind: Kind)
    requires Shaped(w, s) && c < |s.camps| && d < |s.camps| && c != d && ClaimsAsItRuns(s.camps[c])
    requires RanCleanly(w, s, s1, d, kind) && ReadyToSend(s1, c) && RanWhole(s1, a, c)
    ensures |a.camps| == |s.camps| && AtRest(a.camps[c]) && AtRest(a.camps[d])
    ensures Pricing(a) == With(Pricing(s), d, kind == Apply)
  {
    assert s1.camps[c] == s.camps[c] && a.camps[d] == s1.camps[d];
    assert Prices(a.camps[c]) == Prices(s1.camps[c]);
    assert Pricing(a) == Pricing(s1);
  }

  lemma OverlapShows(w: World, s: State, s1: State, a: State, c: nat, d: nat, kind: Kind)
    requires Shaped(w, s) && c < |s.camps| && d < |s.camps| && c != d && ReadyToSend(s, c)
    requires RanCleanly(w, s, s1, d, kind) && ReadyToSend(s1, c) && RanWhole(s1, a, c)
    ensures var p := With(Pricing(s), d, kind == Apply);
            forall v :: v in w.defs[d].scope && v in a.live ==> (Shows(w, a, p, v) <==> PlannedAlike(w, s, c, p, v))
  {
    assert RowsOf(s1, c) == RowsOf(s, c);
  }

  // ------------------------------------------------------ ended, and still on sale

  /** Nobody is writing campaign `c`'s variants, `c` is on, and the mirror is right about them. */
  predicate OnAndQuiet(w: World, s: State, c: nat) {
    && Shaped(w, s) && c < |s.camps|
    && s.camps[c].process.None? && s.camps[c].status == Active && s.camps[c].run.Some?
    && s.camps[c].run.value.kind == Apply && s.camps[c].run.value.status == RunCompleted && !Sent(s.camps[c])
    && MirrorRight(w, s, c)
  }

  /** Ending `c` recomputes every variant it covers, and nothing goes wrong. */
  ghost function EndIt(w: World, s: State, c: nat): seq<Event>
    requires OnAndQuiet(w, s, c)
  {
    CleanRunOf(w, s, c, Revert)
  }

  /** No blocking policy stops the revert. */
  predicate MayEnd(w: World, s: State, c: nat) {
    OnAndQuiet(w, s, c) && NothingBlocks(w, s, c, Revert)
  }

  /**
   * A revert nothing interrupts ends clean: every variant the campaign covers shows the price
   * resolution gives without it, unless whoever wins next leaves the variant alone.
   */
  lemma CleanRevert(w: World, s: State, c: nat)
    requires MayEnd(w, s, c)
    ensures Runs(w, s, EndIt(w, s, c)) && RanCleanly(w, s, After(w, s, EndIt(w, s, c)), c, Revert)
    ensures After(w, s, EndIt(w, s, c)).camps[c].status == Completed && AtRest(After(w, s, EndIt(w, s, c)).camps[c])
  {
    RunsCleanly(w, s, c, Revert);
  }

  /**
   * A campaign ended under one that wins a variant but skips it: its revert ends clean, it shows
   * Completed, and the variant keeps the ended campaign's price. It happens to a variant exactly when
   * the next winner does not price it, or gives it that very price.
   */
  lemma EndedAndStillOnSale(w: World, s: State, c: nat, v: Variant)
    requires MayEnd(w, s, c) && v in w.defs[c].scope && v in s.live
    ensures Runs(w, s, EndIt(w, s, c))
    ensures var a, next := After(w, s, EndIt(w, s, c)), Target(w, With(Pricing(s), c, false), v);
            |a.camps| == |s.camps| && a.camps[c].status == Completed && v in a.live &&
            (a.live[v] == s.live[v] <==> next.Skips? || next.price == s.live[v])
  {
    CleanRevert(w, s, c);
  }

  /**
   * Under such a winner the order of ending matters. With `f` at one price outranking `g` at
   * another, and both above a campaign that skips the variant: ending `f` first leaves `g`'s price
   * standing, ending `g` first leaves `f`'s, and the campaigns still running are the same.
   */
  lemma EndingOrderMatters(w: World, s: State, f: nat, g: nat, v: Variant)
    requires f != g && MayEnd(w, s, f) && MayEnd(w, s, g) && v in w.defs[f].scope && v in w.defs[g].scope && v in s.live
    requires NothingBlocksAfter(w, s, f, g) && NothingBlocksAfter(w, s, g, f)
    requires Target(w, With(Pricing(s), g, false), v) == Priced(s.live[v], false)
    requires Target(w, With(Pricing(s), f, false), v).Priced?
    requires Target(w, With(Pricing(s), f, false), v).price != s.live[v]
    requires Target(w, With(With(Pricing(s), f, false), g, false), v).Skips?
    ensures Runs(w, s, EndIt(w, s, f)) && MayEnd(w, After(w, s, EndIt(w, s, f)), g)
    ensures Runs(w, s, EndIt(w, s, g)) && MayEnd(w, After(w, s, EndIt(w, s, g)), f)
    ensures var sf, sg := After(w, s, EndIt(w, s, f)), After(w, s, EndIt(w, s, g));
            && Runs(w, sf, EndIt(w, sf, g)) && Runs(w, sg, EndIt(w, sg, f))
            && var a, b := After(w, sf, EndIt(w, sf, g)), After(w, sg, EndIt(w, sg, f));
               Pricing(a) == Pricing(b) && v in a.live && v in b.live && a.live[v] != b.live[v]
  {
    assert With(With(Pricing(s), f, false), g, false) == With(With(Pricing(s), g, false), f, false);
    EndsUnderSkipper(w, s, f, g, v);
    EndsUnderSkipper(w, s, g, f, v);
  }

  /** With `c` ended, nothing blocks ending `d`. */
  predicate NothingBlocksAfter(w: World, s: State, c: nat, d: nat)
    requires d < |w.defs|
  {
    forall u :: u in w.defs[d].scope ==> !Target(w, With(With(Pricing(s), c, false), d, false), u).Blocks?
  }

  /** One ended cleanly, then the other with nothing to put: the first one's next price stays. */
  lemma EndsUnderSkipper(w: World, s: State, c: nat, d: nat, v: Variant)
    requires c != d && MayEnd(w, s, c) && OnAndQuiet(w, s, d) && NothingBlocksAfter(w, s, c, d)
    requires v in w.defs[c].scope && v in w.defs[d].scope && v in s.live
    requires Target(w, With(Pricing(s), c, false), v).Priced?
    requires Target(w, With(With(Pricing(s), c, false), d, false), v).Skips?
    ensures Runs(w, s, EndIt(w, s, c)) && MayEnd(w, After(w, s, EndIt(w, s, c)), d)
    ensures var next := After(w, s, EndIt(w, s, c));
            Runs(w, next, EndIt(w, next, d)) &&
            var a := After(w, next, EndIt(w, next, d));
            && Pricing(a) == With(With(Pricing(s), c, false), d, false)
            && v in a.live && a.live[v] == Target(w, With(Pricing(s), c, false), v).price
  {
    CleanRevert(w, s, c);
    var next := After(w, s, EndIt(w, s, c));
    QuietElsewhere(w, s, next, c, d);
    CleanRevert(w, next, d);
  }

  /** Ending one campaign leaves another on and quiet, and the mirror right about its variants. */
  lemma QuietElsewhere(w: World, s: State, a: State, c: nat, d: nat)
    requires c != d && c < |w.defs| && OnAndQuiet(w, s, d) && NothingBlocksAfter(w, s, c, d)
    requires c < |s.camps| && RanCleanly(w, s, a, c, Revert)
    ensures MayEnd(w, a, d)
  {
  }

  // ---------------------------------------------------------- what is shown

  /** What a run found shown no longer fits once it is over: unwritten, or finished when it ended partial. */
  predicate Outlived(found: CampaignState, ended: RunStatus) {
    found == Draft || found == Scheduled || ((found == Active || found == Completed) && ended == RunPartial)
  }

  /**
   * A run over, and the move to its final state throws: the claim is given back, and what the
   * campaign then shows is wrong exactly when the run has outlived what it found shown. A close that
   * goes through is never wrong.
   */
  lemma LostCloseHidesASale(w: World, s: State, c: nat)
    requires Inv(w, s) && CanClose(s, c)
    ensures Shown(DoLoseClose(w, s, c).camps[c])
            <==> !Outlived(s.camps[c].process.value.before.status, s.camps[c].run.value.status)
    ensures Shown(DoClose(s, c).camps[c])
  {
    assert CampOk(w, s, c);
    var k', was := DoLoseClose(w, s, c).camps[c], s.camps[c].process.value.before.status;
    assert Shown(k') <==> ShownAs(k'.run, was);
  }

  /** Giving back what the process has, the latest run goes the way the campaign's pricing did. */
  predicate KeepsDirection(pr: Process) {
    pr.phase == Claimed || (if pr.kind == Revert then !pr.before.prices else pr.before.prices == PricingState(pr.before.status))
  }

  /**
   * A claim given back leaves the campaign pricing what it did before exactly when no run of the
   * other direction was opened under it: a revert given back before it sent anything leaves its
   * campaign shown as it was, its prices up, and winning nothing from any other.
   */
  lemma FailedRevertStopsPricing(w: World, s: State, c: nat)
    requires Inv(w, s) && CanRelease(w, s, c)
    ensures var k' := DoRelease(w, s, c).camps[c];
            && k'.status == s.camps[c].process.value.before.status && DoRelease(w, s, c).live == s.live
            && ((Prices(k') <==> s.camps[c].process.value.before.prices) <==> KeepsDirection(s.camps[c].process.value))
  {
    assert CampOk(w, s, c);
  }

  /**
   * A process killed while it writes its ledger leaves a campaign shown Partial whose ledger says
   * nothing about variants its plan priced: an empty list of outstanding rows is no proof that
   * prices are right.
   */
  lemma CutLedgerOwesUnseen(w: World, s: State, c: nat, v: Variant)
    requires CanOpen(w, s, c) && v in Plan(w, s, c) && s.camps[c].process.value.kind == Apply
    requires s.camps[c].status == Applying && v in s.live && v in s.mirror && s.mirror[v] == s.live[v]
    ensures Runs(w, s, [Open(c, {}), Reap(c)])
    ensures var a := After(w, s, [Open(c, {}), Reap(c)]);
            && |a.camps| == |s.camps| && a.camps[c].status == Partial && a.camps[c].run.Some? && a.camps[c].run.value.rows == map[]
            && Target(w, Pricing(a), v).Priced? && v in a.live && a.live[v] != Target(w, Pricing(a), v).price
  {
    CutAndReaped(w, s, c, v);
    RunsPair(w, s, Open(c, {}), Reap(c));
    assert Pricing(DoStop(DoOpen(w, s, c, {}), c)) == With(Pricing(s), c, true);
  }

  lemma CutAndReaped(w: World, s: State, c: nat, v: Variant)
    requires CanOpen(w, s, c) && v in Plan(w, s, c) && s.camps[c].process.value.kind == Apply && s.camps[c].status == Applying
    ensures CanStop(DoOpen(w, s, c, {}), c) && DoOpen(w, s, c, {}).camps[c].process.None?
    ensures var a := DoStop(DoOpen(w, s, c, {}), c);
            && |a.camps| == |s.camps| && (forall d: nat :: d < |s.camps| && d != c ==> a.camps[d] == s.camps[d])
            && a.camps[c].status == Partial && a.camps[c].run.Some? && a.camps[c].run.value.rows == map[]
            && a.camps[c].run.value.kind == Apply && a.live == s.live
  {
    assert DoOpen(w, s, c, {}).camps[c].run.value.rows == map[];
  }
}
