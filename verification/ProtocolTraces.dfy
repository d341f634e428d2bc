/**
 * Every finding at a storefront the engine reaches: two or three campaigns over one variant, from a
 * fresh state, step by step.
 */
module ProtocolTraces {
  import opened Wrappers
  import opened Ranking
  import opened Lifecycle
  import opened Ledger
  import opened Protocol
  import opened ProtocolInvariant
  import opened ProtocolRest
  import opened ProtocolPromises
  import opened ProtocolAnswers
  import opened ProtocolWholeRuns
  import opened ProtocolFindings

  function Sale(priority: int, offer: Offer): Def {
    Def(Rank(priority, 0, "sale"), {0}, map[0 := offer])
  }

  /** One variant at 100: a quiet sale at 90 and a loud one at 80. */
  const TWO: World := World(map[0 := 100], [Sale(1, Priced(90, false)), Sale(2, Priced(80, false))])

  /** And with a third below both that leaves the variant alone. */
  const THREE: World := World(map[0 := 100], [Sale(1, Skips), Sale(2, Priced(90, false)), Sale(3, Priced(80, false))])

  /** Nothing priced yet, and the app knows every price. */
  function NewShop(w: World): (s: State)
    ensures Fresh(w, s)
  {
    State(w.baseline, w.baseline, seq(|w.defs|, i => Camp(Draft, {}, None, None)), [], 0, {}, {})
  }

  lemma TwoTargets(p: set<nat>)
    requires p <= {0, 1}
    ensures Target(TWO, p, 0) == Priced(if 1 in p then 80 else if 0 in p then 90 else 100, false)
  {
    assert Winner(TWO, p, 0, 0) == None;
    assert Winner(TWO, p, 0, 1) == if 0 in p then Some(0) else None;
    assert Winner(TWO, p, 0, 2) == if 1 in p then Some(1) else if 0 in p then Some(0) else None;
  }

  lemma ThreeTargets(p: set<nat>)
    requires p <= {0, 1, 2}
    ensures Target(THREE, p, 0) == if 2 in p then Priced(80, false) else if 1 in p then Priced(90, false)
                                   else if 0 in p then Skips else Priced(100, false)
  {
    assert Winner(THREE, p, 0, 0) == None;
    assert Winner(THREE, p, 0, 1) == if 0 in p then Some(0) else None;
    assert Winner(THREE, p, 0, 2) == if 1 in p then Some(1) else if 0 in p then Some(0) else None;
    assert Winner(THREE, p, 0, 3) == if 2 in p then Some(2) else if 1 in p then Some(1) else if 0 in p then Some(0) else None;
  }

  // ------------------------------------------------------ the quiet sale, opened

  lemma QuietOpens()
    ensures Runs(TWO, NewShop(TWO), ClaimAndOpen(TWO, 0, Apply, false))
    ensures After(TWO, NewShop(TWO), ClaimAndOpen(TWO, 0, Apply, false)) == Opens(TWO, NewShop(TWO), 0, Apply, false)
    ensures var s := Opens(TWO, NewShop(TWO), 0, Apply, false);
            && Shaped(TWO, s) && |s.camps| == 2 && AboutToSend(s, 0, 0) && ReadyToSend(s, 0)
            && s.live == map[0 := 100] && s.mirror == map[0 := 100] && s.ops == [] && Pricing(s) == {0}
            && s.camps[0].run.value.kind == Apply && s.camps[0].run.value.op.None?
            && s.camps[0].process.value.kind == Apply && s.camps[0].process.value.before.status == Draft
            && s.camps[0].run.value.rows == map[0 := Row(90, false, Pending, None, 0)]
            && s.camps[1] == Camp(Draft, {}, None, None)
  {
    QuietPlans();
    OpensRuns(TWO, NewShop(TWO), 0, Apply, false);
    assert Pricing(Opens(TWO, NewShop(TWO), 0, Apply, false)) == {0};
  }

  lemma QuietPlans()
    ensures var s0 := NewShop(TWO);
            CanClaim(s0, 0, Apply) && !Stopped(TWO, DoClaim(TWO, s0, 0, Apply, false), 0)
            && Plan(TWO, DoClaim(TWO, s0, 0, Apply, false), 0) == map[0 := Row(90, false, Pending, None, 0)]
  {
    var s1 := DoClaim(TWO, NewShop(TWO), 0, Apply, false);
    assert With(Pricing(s1), 0, true) == {0};
    TwoTargets({0});
  }

  /**
   * The loud sale is started while the quiet one has still to send: both end with the row verified and
   * the variant shows 90, with the loud sale on.
   */
  lemma OverlapHappens()
    ensures var es := ClaimAndOpen(TWO, 0, Apply, false) + (ClaimAndOpen(TWO, 1, Apply, false) + OneRow(1, 0) + OneRow(0, 0));
            Fresh(TWO, NewShop(TWO)) && Runs(TWO, NewShop(TWO), es) &&
            var a := After(TWO, NewShop(TWO), es);
            && |a.camps| == 2 && Decided(a.camps[0], 0) && Decided(a.camps[1], 0)
            && Target(TWO, Pricing(a), 0).Priced? && 0 in a.live && a.live[0] != Target(TWO, Pricing(a), 0).price
  {
    QuietOpens();
    var s := Opens(TWO, NewShop(TWO), 0, Apply, false);
    assert With(Pricing(s), 1, true) == {0, 1};
    assert With(Pricing(DoClaim(TWO, s, 1, Apply, false)), 1, true) == {0, 1};
    TwoTargets({0, 1});
    OverlapLosesThePrice(TWO, s, 0, 1, 0);
    AfterConcat(TWO, NewShop(TWO), ClaimAndOpen(TWO, 0, Apply, false),
                ClaimAndOpen(TWO, 1, Apply, false) + OneRow(1, 0) + OneRow(0, 0));
  }

  /** The quiet sale's bulk operation is accepted, its process killed before that is recorded, and it is resumed: two operations. */
  lemma SentTwiceHappens()
    ensures var es := ClaimAndOpen(TWO, 0, Apply, false)
                      + ([Submit(0), Die(0)] + [Reap(0)] + (ClaimAndOpen(TWO, 0, Apply, true) + [Submit(0)]));
            Fresh(TWO, NewShop(TWO)) && Runs(TWO, NewShop(TWO), es) &&
            var a := After(TWO, NewShop(TWO), es);
            |a.ops| == 2 && Unfinished(a, 0, 0, 0) && Unfinished(a, 1, 0, 0)
  {
    QuietOpens();
    var s := Opens(TWO, NewShop(TWO), 0, Apply, false);
    assert With(Pricing(s), 0, true) == {0};
    TwoTargets({0});
    KilledBeforeRecordingSendsTwice(TWO, s, 0, 0);
    AfterConcat(TWO, NewShop(TWO), ClaimAndOpen(TWO, 0, Apply, false),
                [Submit(0), Die(0)] + [Reap(0)] + (ClaimAndOpen(TWO, 0, Apply, true) + [Submit(0)]));
  }

  /** The process is killed before it has written a ledger row: nothing outstanding anywhere, and 100 shown for 90. */
  lemma UnseenRowHappens()
    ensures var es := [Claim(0, Apply, false)] + [Open(0, {}), Reap(0)];
            Fresh(TWO, NewShop(TWO)) && Runs(TWO, NewShop(TWO), es) &&
            var a := After(TWO, NewShop(TWO), es);
            && |a.camps| == 2 && a.camps[0].status == Partial && a.camps[0].run.Some? && a.camps[0].run.value.rows == map[]
            && Target(TWO, Pricing(a), 0).Priced? && 0 in a.live && a.live[0] != Target(TWO, Pricing(a), 0).price
  {
    var s0 := NewShop(TWO);
    var s := DoClaim(TWO, s0, 0, Apply, false);
    RunsOne(TWO, s0, Claim(0, Apply, false));
    assert With(Pricing(s), 0, true) == {0};
    TwoTargets({0});
    assert 0 in Plan(TWO, s, 0);
    CutLedgerOwesUnseen(TWO, s, 0, 0);
    AfterConcat(TWO, s0, [Claim(0, Apply, false)], [Open(0, {}), Reap(0)]);
  }

  // ---------------------------------------------------------------- a lost close

  /** Campaign `c` sends its row, reads it back, records it and finishes; moving the campaign on throws. */
  function FinishedAndLost(c: nat): seq<Event> {
    [Write(c, 0), ReadBack(c, 0)] + [RecordRow(c, 0), SettleMirror(c)] + [FinishRun(c), LoseClose(c)]
  }

  /** `c` is a draft again over a row that landed at `price`; nobody else moved. */
  ghost predicate LostOver(s: State, a: State, c: nat, price: Price) {
    && |a.camps| == |s.camps| && c < |s.camps| && (forall d: nat :: d < |s.camps| && d != c ==> a.camps[d] == s.camps[d])
    && a.live == s.live[0 := price] && a.ops == s.ops && (0 in a.mirror ==> a.mirror[0] == price)
    && HiddenSale(a.camps[c])
  }

  predicate HiddenSale(k: Camp) {
    && k.status == Draft && k.process.None? && k.run.Some? && k.run.value.kind == Apply && k.run.value.status == RunCompleted
    && k.run.value.rows.Keys == {0} && Landed(k.run.value.rows[0].status)
  }

  lemma FinishesAndLoses(w: World, s: State, c: nat, price: Price)
    requires Shaped(w, s) && c < |s.camps| && At(s.camps[c], MirrorSettled) && LiveRun(s.camps[c])
    requires s.camps[c].process.value.heard == map[0 := Confirmed(price)] && s.camps[c].process.value.before.status == Draft
    requires s.camps[c].run.value.rows.Keys == {0} && Landed(s.camps[c].run.value.rows[0].status) && s.camps[c].run.value.kind == Apply
    ensures CanFinish(s, c) && CanClose(DoFinishRun(s, c), c)
    ensures var a := DoLoseClose(w, DoFinishRun(s, c), c);
            a == s.(camps := s.camps[c := a.camps[c]]) && HiddenSale(a.camps[c])
  {
    assert CleanRun(s.camps[c]);
    var s1 := DoFinishRun(s, c);
    assert s1.camps == s.camps[c := s1.camps[c]];
  }

  lemma LosesItsClose(w: World, s: State, c: nat)
    requires Shaped(w, s) && AboutToSend(s, c, 0) && s.camps[c].run.value.rows.Keys == {0}
    requires s.camps[c].process.value.before.status == Draft && s.camps[c].run.value.kind == Apply && s.camps[c].process.value.kind == Apply
    ensures Runs(w, s, FinishedAndLost(c))
    ensures LostOver(s, After(w, s, FinishedAndLost(c)), c, s.camps[c].run.value.rows[0].intended)
  {
    var price := s.camps[c].run.value.rows[0].intended;
    SendAndRead(s, c, 0);
    var s2 := DoReadBack(DoWrite(s, c, 0), c, 0);
    RecordAndSettle(s2, c, 0, price);
    var s4 := DoSettleMirror(DoRecordRow(s2, c, 0), c);
    FinishesAndLoses(w, s4, c, price);
    LostRuns(w, s, s2, s4, c);
  }

  lemma LostRuns(w: World, s: State, s2: State, s4: State, c: nat)
    requires Shaped(w, s) && Shaped(w, s2) && Shaped(w, s4)
    requires CanSend(s, c, 0) && CanReadBack(DoWrite(s, c, 0), c, 0) && s2 == DoReadBack(DoWrite(s, c, 0), c, 0)
    requires CanRecord(s2, c, 0) && CanSettleMirror(DoRecordRow(s2, c, 0), c) && s4 == DoSettleMirror(DoRecordRow(s2, c, 0), c)
    requires CanFinish(s4, c) && CanClose(DoFinishRun(s4, c), c)
    ensures Runs(w, s, FinishedAndLost(c)) && After(w, s, FinishedAndLost(c)) == DoLoseClose(w, DoFinishRun(s4, c), c)
  {
    RunsPair(w, s, Write(c, 0), ReadBack(c, 0));
    RunsPair(w, s2, RecordRow(c, 0), SettleMirror(c));
    RunsPair(w, s4, FinishRun(c), LoseClose(c));
    AfterConcat(w, s, [Write(c, 0), ReadBack(c, 0)], [RecordRow(c, 0), SettleMirror(c)]);
    AfterConcat(w, s, [Write(c, 0), ReadBack(c, 0)] + [RecordRow(c, 0), SettleMirror(c)], [FinishRun(c), LoseClose(c)]);
  }

  lemma LosesFrom(w: World, s0: State, s: State, es: seq<Event>, c: nat)
    requires Runs(w, s0, es) && s == After(w, s0, es)
    requires Shaped(w, s) && AboutToSend(s, c, 0) && s.camps[c].run.value.rows.Keys == {0}
    requires s.camps[c].process.value.before.status == Draft && s.camps[c].run.value.kind == Apply && s.camps[c].process.value.kind == Apply
    ensures Runs(w, s0, es + FinishedAndLost(c))
    ensures LostOver(s, After(w, s0, es + FinishedAndLost(c)), c, s.camps[c].run.value.rows[0].intended)
  {
    LosesItsClose(w, s, c);
    AfterConcat(w, s0, es, FinishedAndLost(c));
  }

  /** A draft over a verified price of 90, with nothing pricing the variant. */
  lemma HiddenSaleHappens()
    ensures var es := ClaimAndOpen(TWO, 0, Apply, false) + FinishedAndLost(0);
            Fresh(TWO, NewShop(TWO)) && Runs(TWO, NewShop(TWO), es) && SaleHidden(After(TWO, NewShop(TWO), es))
  {
    QuietOpens();
    var s := Opens(TWO, NewShop(TWO), 0, Apply, false);
    LosesFrom(TWO, NewShop(TWO), s, ClaimAndOpen(TWO, 0, Apply, false), 0);
    HiddenSalePrices(After(TWO, NewShop(TWO), ClaimAndOpen(TWO, 0, Apply, false) + FinishedAndLost(0)));
  }

  predicate SaleHidden(a: State) {
    && |a.camps| == 2 && HiddenSale(a.camps[0]) && !Shown(a.camps[0])
    && a.live == map[0 := 90] && Target(TWO, Pricing(a), 0) == Priced(100, false)
  }

  lemma HiddenSalePrices(a: State)
    requires |a.camps| == 2 && HiddenSale(a.camps[0]) && a.camps[1] == Camp(Draft, {}, None, None) && a.live == map[0 := 90]
    ensures SaleHidden(a)
  {
    TwoTargets({});
    assert Pricing(a) == {};
    assert !ShownAs(a.camps[0].run, a.camps[0].status);
  }

  // ------------------------------------------------------------- clean runs chained

  /** The shop has the one variant, and its mirror is right about it. */
  predicate Known(s: State) {
    s.live.Keys == {0} && (0 in s.mirror ==> s.mirror[0] == s.live[0])
  }

  /** A clean run of `c` left the variant at `price`. */
  ghost predicate LeftAt(w: World, s: State, a: State, c: nat, kind: Kind, price: Price) {
    && Shaped(w, s) && Shaped(w, a) && c < |s.camps| && RanCleanly(w, s, a, c, kind)
    && Known(a) && a.live == map[0 := price]
  }

  /** What the variant shows after a clean run of `c`: the new price, or the old one if the winner leaves it alone. */
  function Next(w: World, s: State, c: nat, kind: Kind): Price
    requires Known(s)
  {
    var next := Target(w, With(Pricing(s), c, kind == Apply), 0);
    if next.Priced? then next.price else s.live[0]
  }

  /** A run of one variant that may start, and that nothing blocks. */
  predicate MayRun(w: World, s: State, c: nat, kind: Kind) {
    && Shaped(w, s) && Known(s) && CanClaim(s, c, kind) && w.defs[c].scope == {0}
    && !Target(w, With(Pricing(s), c, kind == Apply), 0).Blocks?
  }

  /** A run nothing interrupts, after what came before. */
  lemma NextRun(w: World, s0: State, es: seq<Event>, s: State, c: nat, kind: Kind) returns (es': seq<Event>, a: State)
    requires Runs(w, s0, es) && s == After(w, s0, es) && MayRun(w, s, c, kind)
    ensures Runs(w, s0, es') && a == After(w, s0, es') && LeftAt(w, s, a, c, kind, Next(w, s, c, kind))
  {
    RunsCleanly(w, s, c, kind);
    AfterConcat(w, s0, es, CleanRunOf(w, s, c, kind));
    es' := es + CleanRunOf(w, s, c, kind);
    a := After(w, s0, es');
    LeavesItAt(w, s, a, c, kind);
  }

  lemma LeavesItAt(w: World, s: State, a: State, c: nat, kind: Kind)
    requires MayRun(w, s, c, kind) && RanCleanly(w, s, a, c, kind)
    ensures LeftAt(w, s, a, c, kind, Next(w, s, c, kind))
  {
    assert 0 in a.live;
  }

  /** Two campaigns over the one variant, the second outranking the first: 90 and 80 against 100. */
  ghost predicate TwoSales(w: World) {
    && |w.defs| == 2 && w.defs[0].scope == {0} && w.defs[1].scope == {0}
    && forall p: set<nat> :: p <= {0, 1} ==> Target(w, p, 0) == Priced(if 1 in p then 80 else if 0 in p then 90 else 100, false)
  }

  lemma TwoAreSales()
    ensures TwoSales(TWO)
  {
    forall p: set<nat> | p <= {0, 1}
      ensures Target(TWO, p, 0) == Priced(if 1 in p then 80 else if 0 in p then 90 else 100, false)
    {
      TwoTargets(p);
    }
  }

  predicate BothDrafts(s: State) {
    s.camps == [Camp(Draft, {}, None, None), Camp(Draft, {}, None, None)] && Known(s)
  }

  // -------------------------------------------------------------- a revert given back

  function RevertGivenBack(w: World, c: nat): seq<Event>
    requires c < |w.defs|
  {
    ClaimAndOpen(w, c, Revert, false) + [Release(c)]
  }

  /** `c` is Active again after a revert that sent nothing, and prices nothing. */
  predicate GivenBack(s: State, a: State, c: nat) {
    && |a.camps| == |s.camps| && c < |s.camps| && (forall d: nat :: d < |s.camps| && d != c ==> a.camps[d] == s.camps[d])
    && a.live == s.live && a.mirror == s.mirror && a.ops == s.ops
    && a.camps[c].status == Active && a.camps[c].process.None? && a.camps[c].run.Some?
    && a.camps[c].run.value.kind == Revert && !Prices(a.camps[c])
  }

  lemma GivesBack(w: World, s: State, c: nat)
    requires Shaped(w, s) && CanClaim(s, c, Revert) && NothingBlocks(w, s, c, Revert) && s.camps[c].status == Active
    ensures Runs(w, s, RevertGivenBack(w, c)) && GivenBack(s, After(w, s, RevertGivenBack(w, c)), c)
  {
    OpensReady(w, s, c, Revert);
    OpensRuns(w, s, c, Revert, false);
    var s1 := Opens(w, s, c, Revert, false);
    assert s1.camps[c].process.value.before.status == Active;
    AfterAppend(w, s, ClaimAndOpen(w, c, Revert, false), Release(c));
  }

  /** A step that opens no run of the campaign leaves its latest run going the way it went. */
  lemma KindStays(w: World, s: State, e: Event, c: nat)
    requires Enabled(w, s, e) && c < |s.camps| && s.camps[c].run.Some? && !(e.Open? && e.c == c)
    ensures var s' := Step(w, s, e);
            c < |s'.camps| && s'.camps[c].run.Some? && s'.camps[c].run.value.kind == s.camps[c].run.value.kind
  {
    if Actor(e) != Some(c) {
      OthersStay(w, s, e, c);
    }
  }

  /**
   * Whatever happens after a revert is given back, and whatever the campaign is shown as, it prices
   * nothing until a new run of its own is planned: only applying it again puts that right.
   */
  lemma {:induction false} PricesNothingUntilApplied(w: World, s: State, es: seq<Event>, c: nat)
    requires Runs(w, s, es) && c < |s.camps| && s.camps[c].run.Some? && s.camps[c].run.value.kind == Revert
    requires forall e :: e in es ==> !(e.Open? && e.c == c)
    ensures var a := After(w, s, es);
            c < |a.camps| && a.camps[c].run.Some? && a.camps[c].run.value.kind == Revert && !Prices(a.camps[c])
    decreases |es|
  {
    if es != [] {
      assert es[0] in es;
      KindStays(w, s, es[0], c);
      assert forall e :: e in es[1..] ==> e in es;
      PricesNothingUntilApplied(w, Step(w, s, es[0]), es[1..], c);
    }
  }

  /** Both shown as Active, and the variant at the one that is outranked. */
  predicate OnAtTheLosersPrice(a: State) {
    |a.camps| == 2 && a.camps[0].status == Active && a.camps[1].status == Active && a.live == map[0 := 90]
  }

  /**
   * The loud sale is on at 80, its revert is given back unsent, and the quiet sale is applied: both are
   * Active, and the variant the loud one outranks it on goes to 90.
   */
  lemma LoudSaleLosesItsPrice() returns (es: seq<Event>)
    ensures Fresh(TWO, NewShop(TWO)) && Runs(TWO, NewShop(TWO), es) && OnAtTheLosersPrice(After(TWO, NewShop(TWO), es))
  {
    TwoAreSales();
    es := LouderLosesItsPrice(TWO, NewShop(TWO));
  }

  lemma LouderLosesItsPrice(w: World, s0: State) returns (es: seq<Event>)
    requires TwoSales(w) && BothDrafts(s0)
    ensures Runs(w, s0, es) && OnAtTheLosersPrice(After(w, s0, es))
  {
    assert With(Pricing(s0), 1, true) == {1};
    var es1, s1 := NextRun(w, s0, [], s0, 1, Apply);
    LoudGivesBack(w, s0, s1);
    AfterConcat(w, s0, es1, RevertGivenBack(w, 1));
    var s2 := After(w, s1, RevertGivenBack(w, 1));
    QuietAfterwards(w, s1, s2);
    var a;
    es, a := NextRun(w, s0, es1 + RevertGivenBack(w, 1), s2, 0, Apply);
  }

  lemma LoudGivesBack(w: World, s0: State, s: State)
    requires TwoSales(w) && BothDrafts(s0) && LeftAt(w, s0, s, 1, Apply, 80)
    ensures Runs(w, s, RevertGivenBack(w, 1)) && GivenBack(s, After(w, s, RevertGivenBack(w, 1)), 1)
  {
    LoudMayRevert(w, s0, s);
    GivesBack(w, s, 1);
  }

  lemma LoudMayRevert(w: World, s0: State, s: State)
    requires TwoSales(w) && BothDrafts(s0) && LeftAt(w, s0, s, 1, Apply, 80)
    ensures CanClaim(s, 1, Revert) && NothingBlocks(w, s, 1, Revert) && s.camps[1].status == Active
  {
    assert Pricing(s) == {1} && With({1}, 1, false) == {};
  }

  lemma QuietAfterwards(w: World, s: State, a: State)
    requires TwoSales(w) && |s.camps| == 2 && s.camps[0] == Camp(Draft, {}, None, None) && Known(s) && GivenBack(s, a, 1)
    ensures MayRun(w, a, 0, Apply) && Next(w, a, 0, Apply) == 90
  {
    assert With(Pricing(a), 0, true) == {0};
  }

  // -------------------------------------------------------------- the order of ending

  /** The same two over a third that leaves the variant alone. */
  ghost predicate ThreeSales(w: World) {
    && |w.defs| == 3 && w.defs[0].scope == {0} && w.defs[1].scope == {0} && w.defs[2].scope == {0}
    && forall p: set<nat> :: p <= {0, 1, 2} ==>
      Target(w, p, 0) == if 2 in p then Priced(80, false) else if 1 in p then Priced(90, false)
                         else if 0 in p then Skips else Priced(100, false)
  }

  lemma ThreeAreSales()
    ensures ThreeSales(THREE)
  {
    forall p: set<nat> | p <= {0, 1, 2}
      ensures Target(THREE, p, 0) == if 2 in p then Priced(80, false) else if 1 in p then Priced(90, false)
                                     else if 0 in p then Skips else Priced(100, false)
    {
      ThreeTargets(p);
    }
  }

  /** Every campaign on, the variant at the loudest's 80. */
  predicate AllOn(w: World, s: State) {
    Shaped(w, s) && Pricing(s) == {0, 1, 2} && s.live == map[0 := 80] && OnAndQuiet(w, s, 1) && OnAndQuiet(w, s, 2)
  }

  lemma AllThreeOn(w: World, s0: State) returns (es: seq<Event>, s: State)
    requires ThreeSales(w) && Known(s0)
    requires s0.camps == [Camp(Draft, {}, None, None), Camp(Draft, {}, None, None), Camp(Draft, {}, None, None)]
    ensures Runs(w, s0, es) && s == After(w, s0, es) && AllOn(w, s)
  {
    var es1, s1 := FirstOn(w, s0);
    assert With(Pricing(s1), 1, true) == {0, 1};
    var es2, s2 := NextRun(w, s0, es1, s1, 1, Apply);
    ThirdMayRun(w, s0, s1, s2);
    es, s := NextRun(w, s0, es2, s2, 2, Apply);
    AllAreOn(w, s1, s2, s);
  }

  lemma ThirdMayRun(w: World, s0: State, s1: State, s2: State)
    requires ThreeSales(w) && |s0.camps| == 3 && s0.camps[2] == Camp(Draft, {}, None, None) && |s1.camps| == 3
    requires s1.camps[2] == s0.camps[2] && Pricing(s1) == {0} && LeftAt(w, s1, s2, 1, Apply, 90)
    ensures With(Pricing(s2), 2, true) == {0, 1, 2} && MayRun(w, s2, 2, Apply) && Next(w, s2, 2, Apply) == 80
  {
    SecondPrices(w, s1, s2);
    assert With({0, 1}, 2, true) == {0, 1, 2};
  }

  lemma SecondPrices(w: World, s1: State, s2: State)
    requires |w.defs| == 3 && |s1.camps| == 3 && Pricing(s1) == {0} && LeftAt(w, s1, s2, 1, Apply, 90)
    ensures Pricing(s2) == {0, 1} && s2.camps[2] == s1.camps[2]
  {
  }

  lemma FirstOn(w: World, s0: State) returns (es: seq<Event>, s: State)
    requires ThreeSales(w) && Known(s0)
    requires s0.camps == [Camp(Draft, {}, None, None), Camp(Draft, {}, None, None), Camp(Draft, {}, None, None)]
    ensures Runs(w, s0, es) && s == After(w, s0, es) && Shaped(w, s) && Known(s) && Pricing(s) == {0}
    ensures s.camps[1] == s0.camps[1] && s.camps[2] == s0.camps[2]
  {
    assert Pricing(s0) == {} && With({}, 0, true) == {0};
    es, s := NextRun(w, s0, [], s0, 0, Apply);
  }

  lemma AllAreOn(w: World, s1: State, s2: State, s: State)
    requires |w.defs| == 3 && w.defs[1].scope == {0} && w.defs[2].scope == {0}
    requires LeftAt(w, s1, s2, 1, Apply, 90) && LeftAt(w, s2, s, 2, Apply, 80) && With(Pricing(s2), 2, true) == {0, 1, 2}
    ensures AllOn(w, s)
  {
  }

  /** The variant is left at two prices by two ways of getting to the same campaigns on. */
  predicate SameOnOtherPrice(a: State, b: State) {
    Pricing(a) == Pricing(b) && 0 in a.live && 0 in b.live && a.live[0] != b.live[0]
  }

  /** Two ways of ending the two louder campaigns leave the third on, and the variant at 90 or at 80. */
  lemma EndingOrderHappens() returns (one: seq<Event>, other: seq<Event>)
    ensures Fresh(THREE, NewShop(THREE)) && Runs(THREE, NewShop(THREE), one) && Runs(THREE, NewShop(THREE), other)
    ensures SameOnOtherPrice(After(THREE, NewShop(THREE), one), After(THREE, NewShop(THREE), other))
  {
    ThreeAreSales();
    var es, s := AllThreeOn(THREE, NewShop(THREE));
    one, other := EndsTwoWays(THREE, NewShop(THREE), es, s);
  }

  lemma EndsTwoWays(w: World, s0: State, es: seq<Event>, s: State) returns (one: seq<Event>, other: seq<Event>)
    requires ThreeSales(w) && Runs(w, s0, es) && s == After(w, s0, es) && AllOn(w, s)
    ensures Runs(w, s0, one) && Runs(w, s0, other) && SameOnOtherPrice(After(w, s0, one), After(w, s0, other))
  {
    EndsEitherWay(w, s);
    var sf, sg := After(w, s, EndIt(w, s, 2)), After(w, s, EndIt(w, s, 1));
    AfterConcat(w, s, EndIt(w, s, 2), EndIt(w, sf, 1));
    AfterConcat(w, s, EndIt(w, s, 1), EndIt(w, sg, 2));
    one, other := es + (EndIt(w, s, 2) + EndIt(w, sf, 1)), es + (EndIt(w, s, 1) + EndIt(w, sg, 2));
    AfterConcat(w, s0, es, EndIt(w, s, 2) + EndIt(w, sf, 1));
    AfterConcat(w, s0, es, EndIt(w, s, 1) + EndIt(w, sg, 2));
  }

  lemma EndsEitherWay(w: World, s: State)
    requires ThreeSales(w) && AllOn(w, s)
    ensures Runs(w, s, EndIt(w, s, 2)) && OnAndQuiet(w, After(w, s, EndIt(w, s, 2)), 1)
    ensures Runs(w, s, EndIt(w, s, 1)) && OnAndQuiet(w, After(w, s, EndIt(w, s, 1)), 2)
    ensures var sf, sg := After(w, s, EndIt(w, s, 2)), After(w, s, EndIt(w, s, 1));
            && Runs(w, sf, EndIt(w, sf, 1)) && Runs(w, sg, EndIt(w, sg, 2))
            && SameOnOtherPrice(After(w, sf, EndIt(w, sf, 1)), After(w, sg, EndIt(w, sg, 2)))
  {
    EachMayEnd(w, s);
    EndingOrderMatters(w, s, 2, 1, 0);
  }

  lemma EachMayEnd(w: World, s: State)
    requires ThreeSales(w) && AllOn(w, s)
    ensures MayEnd(w, s, 1) && MayEnd(w, s, 2) && NothingBlocksAfter(w, s, 1, 2) && NothingBlocksAfter(w, s, 2, 1)
    ensures Target(w, With(Pricing(s), 1, false), 0) == Priced(80, false)
    ensures Target(w, With(Pricing(s), 2, false), 0) == Priced(90, false)
    ensures Target(w, With(With(Pricing(s), 2, false), 1, false), 0) == Skips
  {
    assert With({0, 1, 2}, 2, false) == {0, 1} && With({0, 1, 2}, 1, false) == {0, 2};
    assert With({0, 1}, 1, false) == {0} && With({0, 2}, 2, false) == {0};
  }

  // --------------------------------------------------------- resuming what is a draft

  /** Campaign 1 resumed, with nothing to plan. */
  function ResumedAsDraft(w: World): seq<Event>
    requires |w.defs| == 2
  {
    ClaimAndOpen(w, 1, Apply, true) + ([SettleMirror(1), FinishRun(1)] + [Close(1)])
  }

  /** Nothing is in flight and campaign 1 is a draft its page would offer to apply, not to resume. */
  predicate MayApplyDraft(w: World, s: State) {
    Shaped(w, s) && |w.defs| == 2 && CanClaim(s, 1, Apply) && s.camps[1].status == Draft && Clear(w, s, Claim(1, Apply, false))
  }

  /** Both campaigns are on and nothing is owed, and the variant shows the price of the one that is outranked. */
  ghost predicate SettledWrongly(w: World, a: State) {
    && |a.camps| == 2 && AtRest(a.camps[0]) && AtRest(a.camps[1]) && a.camps[1].status == Active
    && Target(w, Pricing(a), 0) == Priced(80, false) && a.live == map[0 := 90]
  }

  /**
   * Resuming a campaign not shown Partial, which the page never offers, would be wrong: the loud sale's
   * close is lost, the quiet one is applied, and the loud one's ledger calls its row settled, so a resume
   * leaves the variant at the quiet sale's 90, and ends clean.
   */
  lemma ResumeNeedsPartial() returns (es: seq<Event>, before: State)
    ensures Fresh(TWO, NewShop(TWO)) && Runs(TWO, NewShop(TWO), es) && before == After(TWO, NewShop(TWO), es)
    ensures MayApplyDraft(TWO, before) && Runs(TWO, before, ResumedAsDraft(TWO))
    ensures SettledWrongly(TWO, After(TWO, before, ResumedAsDraft(TWO)))
  {
    TwoAreSales();
    es, before := DraftResumed(TWO, NewShop(TWO));
  }

  lemma DraftResumed(w: World, s0: State) returns (es: seq<Event>, before: State)
    requires TwoSales(w) && BothDrafts(s0) && s0.live == map[0 := 100] && s0.ops == []
    ensures Runs(w, s0, es) && before == After(w, s0, es)
    ensures MayApplyDraft(w, before) && Runs(w, before, ResumedAsDraft(w))
    ensures SettledWrongly(w, After(w, before, ResumedAsDraft(w)))
  {
    var hidden, s1 := LoudSaleHidden(w, s0);
    QuietRunsNext(w, s1);
    es, before := NextRun(w, s0, hidden, s1, 0, Apply);
    QuietGoesOver(w, s1, before);
    ResumesNothing(w, before);
  }

  lemma QuietRunsNext(w: World, s: State)
    requires TwoSales(w) && Shaped(w, s) && LoudHidden(s)
    ensures MayRun(w, s, 0, Apply) && Next(w, s, 0, Apply) == 90
  {
    assert With(Pricing(s), 0, true) == {0};
  }

  lemma QuietGoesOver(w: World, s: State, a: State)
    requires |w.defs| == 2 && LoudHidden(s) && LeftAt(w, s, a, 0, Apply, 90)
    ensures QuietOverHidden(a)
  {
  }

  /** Only the loud sale has run; it shows as a draft over its price. */
  predicate LoudHidden(s: State) {
    && |s.camps| == 2 && HiddenSale(s.camps[1]) && s.camps[0] == Camp(Draft, {}, None, None)
    && Known(s) && s.live == map[0 := 80] && s.ops == []
  }

  lemma LoudSaleHidden(w: World, s0: State) returns (es: seq<Event>, s: State)
    requires TwoSales(w) && BothDrafts(s0) && s0.live == map[0 := 100] && s0.ops == []
    ensures Runs(w, s0, es) && s == After(w, s0, es) && Shaped(w, s) && LoudHidden(s)
  {
    var begun, s1 := LoudOpens(w, s0);
    LosesFrom(w, s0, s1, begun, 1);
    es := begun + FinishedAndLost(1);
    s := After(w, s0, es);
    LostIsHidden(s1, s);
  }

  lemma LostIsHidden(s: State, a: State)
    requires LoudReady(s) && LostOver(s, a, 1, 80)
    ensures LoudHidden(a)
  {
    assert a.camps[0] == s.camps[0];
  }

  /** The loud sale is about to send its one row at 80. */
  predicate LoudReady(s: State) {
    && |s.camps| == 2 && AboutToSend(s, 1, 0) && s.camps[1].run.value.rows.Keys == {0} && s.live == map[0 := 100] && s.ops == []
    && s.camps[1].run.value.rows[0].intended == 80 && s.camps[0] == Camp(Draft, {}, None, None)
    && s.camps[1].process.value.before.status == Draft
    && s.camps[1].run.value.kind == Apply && s.camps[1].process.value.kind == Apply
  }

  lemma LoudOpens(w: World, s0: State) returns (es: seq<Event>, s: State)
    requires TwoSales(w) && BothDrafts(s0) && s0.live == map[0 := 100] && s0.ops == []
    ensures Runs(w, s0, es) && s == After(w, s0, es) && LoudReady(s)
  {
    LoudIsReady(w, s0);
    OpensRuns(w, s0, 1, Apply, false);
    es, s := ClaimAndOpen(w, 1, Apply, false), Opens(w, s0, 1, Apply, false);
  }

  lemma LoudIsReady(w: World, s0: State)
    requires TwoSales(w) && BothDrafts(s0) && s0.live == map[0 := 100] && s0.ops == []
    ensures CanClaim(s0, 1, Apply) && !Stopped(w, DoClaim(w, s0, 1, Apply, false), 1) && LoudReady(Opens(w, s0, 1, Apply, false))
  {
    LoudHasOneRow(w, s0);
    OpensReady(w, s0, 1, Apply);
    assert Opens(w, s0, 1, Apply, false).camps[1].process.value.before == DoClaim(w, s0, 1, Apply, false).camps[1].process.value.before;
  }

  lemma LoudHasOneRow(w: World, s0: State)
    requires TwoSales(w) && BothDrafts(s0) && s0.live == map[0 := 100]
    ensures CanClaim(s0, 1, Apply) && NothingBlocks(w, s0, 1, Apply) && ToWrite(w, s0, 1, Apply) == {0}
    ensures Target(w, With(Pricing(s0), 1, true), 0) == Priced(80, false)
  {
    assert With(Pricing(s0), 1, true) == {1};
  }

  /** The quiet sale on at 90, over the loud one hidden as a draft. */
  predicate QuietOverHidden(s: State) {
    && |s.camps| == 2 && HiddenSale(s.camps[1]) && s.live == map[0 := 90] && s.ops == []
    && s.camps[0].process.None? && s.camps[0].status == Active && s.camps[0].run.Some? && !Sent(s.camps[0])
    && s.camps[0].run.value.kind == Apply && s.camps[0].run.value.status == RunCompleted
  }

  lemma ResumesNothing(w: World, s: State)
    requires TwoSales(w) && QuietOverHidden(s)
    ensures MayApplyDraft(w, s) && Runs(w, s, ResumedAsDraft(w)) && SettledWrongly(w, After(w, s, ResumedAsDraft(w)))
  {
    DraftMayApply(w, s);
    PlansNothing(w, s);
    OpensRuns(w, s, 1, Apply, true);
    var s2 := Opens(w, s, 1, Apply, true);
    EmptyRunCloses(w, s2, 1);
    AfterConcat(w, s, ClaimAndOpen(w, 1, Apply, true), [SettleMirror(1), FinishRun(1)] + [Close(1)]);
    BothOn(w, s, After(w, s, ResumedAsDraft(w)));
  }

  lemma BothOn(w: World, s: State, a: State)
    requires TwoSales(w) && QuietOverHidden(s) && |a.camps| == 2 && a.camps[0] == s.camps[0] && a.live == s.live && ClosedEmpty(a.camps[1])
    ensures SettledWrongly(w, a)
  {
    assert Pricing(a) == {0, 1};
  }

  lemma DraftMayApply(w: World, s: State)
    requires |w.defs| == 2 && QuietOverHidden(s)
    ensures MayApplyDraft(w, s)
  {
  }

  lemma PlansNothing(w: World, s: State)
    requires TwoSales(w) && QuietOverHidden(s) && CanClaim(s, 1, Apply)
    ensures !Stopped(w, DoClaim(w, s, 1, Apply, true), 1)
    ensures forall v :: v !in Plan(w, DoClaim(w, s, 1, Apply, true), 1)
  {
    var s1 := DoClaim(w, s, 1, Apply, true);
    assert With(Pricing(s1), 1, true) == {0, 1};
    assert !ResumeSends(Prior(s1.camps[1], Apply), 0);
  }

  /** Completed with nothing in its ledger, and shown as on. */
  predicate ClosedEmpty(k: Camp) {
    && k.process.None? && k.status == Active && k.run.Some? && k.run.value.kind == Apply
    && k.run.value.status == RunCompleted && k.run.value.rows.Keys == {}
  }

  /** A run that planned nothing settles and closes clean. */
  lemma EmptyRunCloses(w: World, s: State, c: nat)
    requires Shaped(w, s) && ReadyToSend(s, c) && RowsOf(s, c).Keys == {}
    requires s.camps[c].process.value.kind == Apply && s.camps[c].run.value.kind == Apply
    ensures var es := [SettleMirror(c), FinishRun(c)] + [Close(c)];
            Runs(w, s, es) &&
            var a := After(w, s, es);
            |a.camps| == |s.camps| && (forall d: nat :: d < |s.camps| && d != c ==> a.camps[d] == s.camps[d])
            && a.live == s.live && ClosedEmpty(a.camps[c])
  {
    EmptyRunEnds(s, c);
    RunsPair(w, s, SettleMirror(c), FinishRun(c));
    AfterAppend(w, s, [SettleMirror(c), FinishRun(c)], Close(c));
  }

  lemma EmptyRunEnds(s: State, c: nat)
    requires ReadyToSend(s, c) && RowsOf(s, c).Keys == {}
    requires s.camps[c].process.value.kind == Apply && s.camps[c].run.value.kind == Apply
    ensures CanSettleMirror(s, c) && CanFinish(DoSettleMirror(s, c), c) && CanClose(DoFinishRun(DoSettleMirror(s, c), c), c)
    ensures var a := DoClose(DoFinishRun(DoSettleMirror(s, c), c), c);
            |a.camps| == |s.camps| && (forall d: nat :: d < |s.camps| && d != c ==> a.camps[d] == s.camps[d])
            && a.live == s.live && ClosedEmpty(a.camps[c])
  {
  }
}
