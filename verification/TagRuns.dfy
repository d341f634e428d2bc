/**
 * Storefront tags over whole histories: campaigns starting, tagging and ending, requests that fail,
 * and the merchant's own edits, on one product and over a store of them.
 */
module TagRuns {
  import opened Wrappers
  import opened Tags

  /**
   * A product, the running campaigns, the tags the merchant had or put on first, and the kit each
   * running campaign last tagged it with.
   */
  datatype Tagging = Tagging(p: OnProduct, running: set<Camp>, merchant: set<Tag>, kits: map<Camp, set<Tag>>)

  datatype Event =
    | Starts(c: Camp)
    | Applies(c: Camp, run: RunId, kit: set<Tag>, result: AddResult)
    | Ends(c: Camp, takeovers: seq<Takeover>, removal: RemoveResult)
    | MerchantAdds(t: Tag)
    | MerchantRemoves(t: Tag)

  predicate Enabled(s: Tagging, e: Event) {
    match e
    case Starts(c) => c !in s.running
    case Applies(c, run, _, _) => c in s.running && Free(s.p, (c, run))
    case Ends(c, ts, _) => c in s.running && Winners(ts, s.running - {c}, c)
    case MerchantAdds(t) => t !in s.p.tags
    case MerchantRemoves(t) => t in s.p.tags
  }

  /** A takeover at its turn gives the winner its kit. */
  predicate Carries(before: OnProduct, t: Takeover) {
    !HasRow(before, t.winner) && (t.result.Added? || t.kit <= before.tags)
  }

  function HandedKits(s: Tagging, c: Camp, ts: seq<Takeover>): (kits: map<Camp, set<Tag>>)
    ensures kits.Keys <= s.kits.Keys - {c} + set t | t in ts :: t.winner
  {
    if ts == [] then s.kits - {c}
    else
      var t, front := ts[|ts| - 1], ts[..|ts| - 1];
      var kits := HandedKits(s, c, front);
      assert forall x :: x in front ==> x in ts;
      if Carries(Handed(s.p, s.running - {c}, c, front), t) then kits[t.winner := t.kit] else kits
  }

  function Step(s: Tagging, e: Event): Tagging
    requires Enabled(s, e)
  {
    match e
    case Starts(c) => s.(running := s.running + {c})
    case Applies(c, run, kit, result) =>
      s.(p := Tried(s.p, s.running, c, run, kit, None, result),
         kits := if result.Added? || kit <= s.p.tags then s.kits[c := kit] else s.kits)
    case Ends(c, ts, removal) =>
      s.(p := Ended(s.p, s.running - {c}, c, ts, removal), running := s.running - {c}, kits := HandedKits(s, c, ts))
    case MerchantAdds(t) => s.(p := s.p.(tags := s.p.tags + {t}), merchant := s.merchant + {t})
    case MerchantRemoves(t) => s.(p := s.p.(tags := s.p.tags - {t}), merchant := s.merchant - {t})
  }

  predicate Runs(s: Tagging, es: seq<Event>)
    decreases |es|
  {
    es == [] || (Enabled(s, es[0]) && Runs(Step(s, es[0]), es[1..]))
  }

  function After(s: Tagging, es: seq<Event>): Tagging
    requires Runs(s, es)
    decreases |es|
  {
    if es == [] then s else After(Step(s, es[0]), es[1..])
  }

  /** A product nobody has tagged: what is on it is the merchant's. */
  predicate Untouched(s: Tagging) {
    s.p.rows == map[] && s.running == {} && s.merchant == s.p.tags && s.kits == map[]
  }

  // ------------------------------------------------------- the merchant's tags

  predicate NobodyClaims(p: OnProduct, t: Tag) {
    forall k :: k in p.rows && Claims(p.rows[k]) ==> t !in p.rows[k].added
  }

  /** A tag the merchant puts on is safe exactly when no ledger row, of a campaign running or over, claims it. */
  lemma MerchantAddsSafely(s: Tagging, t: Tag)
    requires Respects(s.p, s.merchant) && Enabled(s, MerchantAdds(t))
    ensures Respects(Step(s, MerchantAdds(t)).p, s.merchant + {t}) <==> NobodyClaims(s.p, t)
  {
  }

  /** The merchant's own tags are added only where no row claims them. */
  predicate AddsUnclaimed(s: Tagging, es: seq<Event>)
    requires Runs(s, es)
    decreases |es|
  {
    es == [] ||
    ((es[0].MerchantAdds? ==> NobodyClaims(s.p, es[0].t)) && AddsUnclaimed(Step(s, es[0]), es[1..]))
  }

  lemma StepRespects(s: Tagging, e: Event)
    requires Respects(s.p, s.merchant) && Enabled(s, e) && (e.MerchantAdds? ==> NobodyClaims(s.p, e.t))
    ensures Respects(Step(s, e).p, Step(s, e).merchant)
  {
    match e
    case Applies(c, run, kit, result) => TriedRespects(s.p, s.running, s.merchant, c, run, kit, None, result);
    case Ends(c, ts, removal) =>
      HandedRespects(s.p, s.running - {c}, s.merchant, c, ts);
      UntaggedRespects(Handed(s.p, s.running - {c}, c, ts), s.running - {c}, s.merchant, c, removal);
    case _ =>
  }

  /**
   * Over every history, whatever campaigns start, tag, take over and end, and whatever requests fail,
   * landed or not: a tag the merchant had first is never removed, and no campaign ever claims it.
   */
  lemma {:induction false} MerchantsTagsStay(s: Tagging, es: seq<Event>)
    requires Respects(s.p, s.merchant) && Runs(s, es) && AddsUnclaimed(s, es)
    ensures Respects(After(s, es).p, After(s, es).merchant)
    decreases |es|
  {
    if es != [] {
      StepRespects(s, es[0]);
      MerchantsTagsStay(Step(s, es[0]), es[1..]);
    }
  }

  // -------------------------------------------------------------- every promise

  /**
   * The merchant's tags are on, every other tag on is owed by a running campaign, everything owed is
   * on, and each running campaign that tagged the product owns its kit there.
   */
  ghost predicate Promised(s: Tagging) {
    && Kept(s.p, s.running, s.merchant)
    && s.kits.Keys <= s.running
    && forall c :: c in s.kits ==> s.kits[c] - s.merchant <= Owned(s.p, c)
  }

  /** So every running campaign's badges are on the product. */
  lemma PromisedBadges(s: Tagging, c: Camp)
    requires Promised(s) && c in s.kits
    ensures s.kits[c] <= s.p.tags
  {
    forall t | t in s.kits[c]
      ensures t in s.p.tags
    {
      assert t in s.merchant || OwedNow(s.p, s.running, t);
    }
  }

  /** What each event needs for every promise to be kept. */
  predicate Orderly(s: Tagging, e: Event)
    requires Enabled(s, e)
  {
    match e
    // A campaign that starts has no claim left on a tag that is off.
    case Starts(c) => Owned(s.p, c) <= s.p.tags
    // An add that fails has not landed.
    case Applies(_, _, kit, result) => AddOk(s.p, kit, result)
    // So has every takeover's, and the removal is not refused what it has to take off.
    case Ends(c, ts, removal) =>
      && HandedOk(s.p, s.running - {c}, c, ts)
      && RemoveOk(Handed(s.p, s.running - {c}, c, ts), s.running - {c}, c, removal)
    case MerchantAdds(t) => NobodyClaims(s.p, t)
    // The merchant takes off a tag of their own that no running campaign carries.
    case MerchantRemoves(t) => t in s.merchant && forall c :: c in s.kits ==> t !in s.kits[c]
  }

  lemma StartExactly(s: Tagging, c: Camp)
    requires Promised(s) && Enabled(s, Starts(c))
    ensures Promised(Step(s, Starts(c))) <==> Owned(s.p, c) <= s.p.tags
  {
    var running := s.running + {c};
    forall t
      ensures OwedNow(s.p, running, t) <==> OwedNow(s.p, s.running, t) || t in Owned(s.p, c)
    {
      if OwedNow(s.p, running, t) {
        var d :| d in running && t in Owned(s.p, d);
        assert d in s.running || d == c;
      }
      if OwedNow(s.p, s.running, t) {
        var d :| d in s.running && t in Owned(s.p, d);
        assert d in running;
      }
    }
  }

  lemma ApplyExactly(s: Tagging, c: Camp, run: RunId, kit: set<Tag>, result: AddResult)
    requires Promised(s) && Enabled(s, Applies(c, run, kit, result))
    ensures Promised(Step(s, Applies(c, run, kit, result))) <==> AddOk(s.p, kit, result)
  {
    var p' := Tried(s.p, s.running, c, run, kit, None, result);
    TriedExactly(s.p, s.running, s.merchant, {}, c, run, kit, None, result);
    if result.Added? || kit <= s.p.tags {
      TriedKeeps(s.p, s.running, s.merchant, {}, c, run, kit, None, result);
    }
    forall d | d in s.kits
      ensures Owned(s.p, d) <= Owned(p', d)
    {
      forall t | t in Owned(s.p, d)
        ensures t in Owned(p', d)
      {
        OwnedAfterRow(s.p, p'.tags, (c, run), p'.rows[(c, run)], d, t);
      }
    }
  }

  /** The kits handed over are owned once the takeovers are done. */
  lemma {:induction false} HandedKitsOwned(s: Tagging, c: Camp, ts: seq<Takeover>)
    requires Promised(s) && c in s.running && Winners(ts, s.running - {c}, c) && HandedOk(s.p, s.running - {c}, c, ts)
    ensures var kits, p' := HandedKits(s, c, ts), Handed(s.p, s.running - {c}, c, ts);
            kits.Keys <= s.running - {c} && forall d :: d in kits ==> kits[d] - s.merchant <= Owned(p', d)
  {
    if ts != [] {
      var t, front := ts[|ts| - 1], ts[..|ts| - 1];
      var left := s.running - {c};
      assert forall x :: x in front ==> x in ts;
      assert t in ts && t.winner in left;
      HandedKitsOwned(s, c, front);
      var before := Handed(s.p, left, c, front);
      LeavesItsTags(s.p, s.running, s.merchant, c);
      HandedExactly(s.p, left, s.merchant, c, front);
      HandedOwnsElse(s.p, left, c, front, c);
      var kits := HandedKits(s, c, front);
      forall d | d in kits
        ensures kits[d] - s.merchant <= Owned(Handed(s.p, left, c, ts), d)
      {
        assert [t][..0] == [];
        HandedOwnsElse(before, left, c, [t], d);
        assert Handed(before, left, c, [t]) == TakenOver(before, left, c, t);
      }
      if Carries(before, t) {
        NoRowIsFree(before, t.winner, t.run);
        TriedKeeps(before, left, s.merchant, Owned(s.p, c), t.winner, t.run, t.kit, Some(c), t.result);
      }
    }
  }

  lemma EndExactly(s: Tagging, c: Camp, ts: seq<Takeover>, removal: RemoveResult)
    requires Promised(s) && Enabled(s, Ends(c, ts, removal))
    ensures Promised(Step(s, Ends(c, ts, removal))) <==> Orderly(s, Ends(c, ts, removal))
  {
    var left := s.running - {c};
    EndedExactly(s.p, s.running, s.merchant, c, ts, removal);
    if HandedOk(s.p, left, c, ts) {
      HandedKitsOwned(s, c, ts);
      var kits, handed := HandedKits(s, c, ts), Handed(s.p, left, c, ts);
      forall d | d in kits
        ensures kits[d] - s.merchant <= Owned(Ended(s.p, left, c, ts, removal), d)
      {
        OwnedAfterRemoval(handed, left, c, removal, d);
      }
    }
  }

  lemma MerchantAddsExactly(s: Tagging, t: Tag)
    requires Promised(s) && Enabled(s, MerchantAdds(t))
    ensures Promised(Step(s, MerchantAdds(t))) <==> NobodyClaims(s.p, t)
  {
    var s' := Step(s, MerchantAdds(t));
    MerchantAddsSafely(s, t);
    SameRowsOweAlike(s, s');
    assert !OwedNow(s.p, s.running, t);
  }

  lemma MerchantRemovesExactly(s: Tagging, t: Tag)
    requires Promised(s) && Enabled(s, MerchantRemoves(t))
    ensures Promised(Step(s, MerchantRemoves(t))) <==> Orderly(s, MerchantRemoves(t))
  {
    var s' := Step(s, MerchantRemoves(t));
    SameRowsOweAlike(s, s');
    if t in s.merchant {
      forall c
        ensures t !in Owned(s.p, c)
      {
      }
      forall c | c in s.kits && t in s.kits[c]
        ensures !Promised(s')
      {
        assert t in s'.kits[c] - s'.merchant;
      }
    }
  }

  lemma SameRowsOweAlike(s: Tagging, s': Tagging)
    requires s'.p.rows == s.p.rows && s'.running == s.running
    ensures forall c :: Owned(s'.p, c) == Owned(s.p, c)
    ensures forall t :: OwedNow(s'.p, s'.running, t) <==> OwedNow(s.p, s.running, t)
  {
    forall c
      ensures Owned(s'.p, c) == Owned(s.p, c)
    {
    }
    forall t
      ensures OwedNow(s'.p, s'.running, t) <==> OwedNow(s.p, s.running, t)
    {
      if OwedNow(s.p, s.running, t) {
        var c :| c in s.running && t in Owned(s.p, c);
        assert t in Owned(s'.p, c);
      }
      if OwedNow(s'.p, s'.running, t) {
        var c :| c in s'.running && t in Owned(s'.p, c);
        assert t in Owned(s.p, c);
      }
    }
  }

  /** Every event keeps every promise exactly when it is orderly. */
  lemma StepExactly(s: Tagging, e: Event)
    requires Promised(s) && Enabled(s, e)
    ensures Promised(Step(s, e)) <==> Orderly(s, e)
  {
    match e
    case Starts(c) => StartExactly(s, c);
    case Applies(c, run, kit, result) => ApplyExactly(s, c, run, kit, result);
    case Ends(c, ts, removal) => EndExactly(s, c, ts, removal);
    case MerchantAdds(t) => MerchantAddsExactly(s, t);
    case MerchantRemoves(t) => MerchantRemovesExactly(s, t);
  }

  predicate OrderlyRuns(s: Tagging, es: seq<Event>)
    requires Runs(s, es)
    decreases |es|
  {
    es == [] || (Orderly(s, es[0]) && OrderlyRuns(Step(s, es[0]), es[1..]))
  }

  /** Every promise is kept after each event of the history. */
  ghost predicate PromisedThroughout(s: Tagging, es: seq<Event>)
    requires Runs(s, es)
    decreases |es|
  {
    es == [] || (Promised(Step(s, es[0])) && PromisedThroughout(Step(s, es[0]), es[1..]))
  }

  /**
   * Over every history of starts, applies, takeovers, ends, failed requests and merchant's edits:
   * every promise about the product is kept at every moment exactly when every event is orderly.
   */
  lemma {:induction false} PromisedExactly(s: Tagging, es: seq<Event>)
    requires Promised(s) && Runs(s, es)
    ensures PromisedThroughout(s, es) <==> OrderlyRuns(s, es)
    decreases |es|
  {
    if es != [] {
      StepExactly(s, es[0]);
      if Orderly(s, es[0]) {
        PromisedExactly(Step(s, es[0]), es[1..]);
      }
    }
  }

  lemma UntouchedIsPromised(s: Tagging)
    requires Untouched(s)
    ensures Promised(s)
  {
  }

  /** And once nobody runs, an orderly history leaves the merchant's tags and no others. */
  lemma {:induction false} OrderlyEndsWhereItBegan(s: Tagging, es: seq<Event>)
    requires Promised(s) && Runs(s, es) && OrderlyRuns(s, es)
    ensures Promised(After(s, es))
    ensures After(s, es).running == {} ==> After(s, es).p.tags == After(s, es).merchant
    ensures forall c :: c in After(s, es).kits ==> After(s, es).kits[c] <= After(s, es).p.tags
    decreases |es|
  {
    if es != [] {
      StepExactly(s, es[0]);
      OrderlyEndsWhereItBegan(Step(s, es[0]), es[1..]);
    } else {
      forall c | c in s.kits
        ensures s.kits[c] <= s.p.tags
      {
        PromisedBadges(s, c);
      }
      assert s.running == {} ==> forall t :: t in s.p.tags <==> t in s.merchant;
    }
  }

  /**
   * From a product nobody has tagged: every promise is kept at every moment exactly when every event
   * is orderly, and then each running campaign's badges are on it, and with none running just the
   * merchant's tags.
   */
  lemma FromUntouched(s: Tagging, es: seq<Event>)
    requires Untouched(s) && Runs(s, es)
    ensures PromisedThroughout(s, es) <==> OrderlyRuns(s, es)
    ensures OrderlyRuns(s, es) ==>
              var after := After(s, es);
              && (forall c :: c in after.kits ==> after.kits[c] <= after.p.tags)
              && (after.running == {} ==> after.p.tags == after.merchant)
  {
    UntouchedIsPromised(s);
    PromisedExactly(s, es);
    if OrderlyRuns(s, es) {
      OrderlyEndsWhereItBegan(s, es);
    }
  }

  // ------------------------------------------------------------ where it falls short

  /** Two sales share a tag and end one after the other; each ending finds what the ledger says. */
  function TwoSalesEnd(t: Tag): seq<Event> {
    [Starts(1), Applies(1, 1, {t}, Added), Starts(2), Applies(2, 2, {t}, Added)] + [Ends(1, [], Taken), Ends(2, [], Taken)]
  }

  /** What they leave: the product as it was, and the first sale's row still claiming the tag. */
  function LeftBehind(p: OnProduct, t: Tag): OnProduct {
    OnProduct(p.tags, map[(1, 1) := TagRow({t}, TagVerified), (2, 2) := TagRow({t}, TagReverted)])
  }

  lemma {:induction false} AfterConcat(s: Tagging, es: seq<Event>, fs: seq<Event>)
    requires Runs(s, es) && Runs(After(s, es), fs)
    ensures Runs(s, es + fs) && After(s, es + fs) == After(After(s, es), fs)
    decreases |es|
  {
    if es == [] {
      assert es + fs == fs;
    } else {
      assert (es + fs)[1..] == es[1..] + fs;
      AfterConcat(Step(s, es[0]), es[1..], fs);
    }
  }

  lemma OneEvent(s: Tagging, e: Event)
    requires Enabled(s, e)
    ensures Runs(s, [e]) && After(s, [e]) == Step(s, e)
  {
    assert [e][1..] == [];
  }

  lemma TwoEvents(s: Tagging, e: Event, f: Event)
    requires Enabled(s, e) && Enabled(Step(s, e), f)
    ensures Runs(s, [e, f]) && After(s, [e, f]) == Step(Step(s, e), f)
  {
    OneEvent(Step(s, e), f);
    assert [e, f][1..] == [f];
  }

  /** A campaign with one claiming row owns what it claims. */
  lemma OwnsOneRow(p: OnProduct, k: (Camp, RunId))
    requires k in p.rows && Claims(p.rows[k]) && forall j :: j in p.rows && j.0 == k.0 ==> j == k || p.rows[j].added <= p.rows[k].added
    ensures Owned(p, k.0) == p.rows[k].added
  {
    assert forall t :: t in p.rows[k].added ==> t in Owned(p, k.0);
  }

  /** The first sale of a tag the product did not have. */
  lemma FirstSale(s: Tagging, t: Tag)
    requires Untouched(s) && t !in s.p.tags
    ensures Runs(s, [Starts(1), Applies(1, 1, {t}, Added)])
    ensures After(s, [Starts(1), Applies(1, 1, {t}, Added)])
         == Tagging(OnProduct(s.p.tags + {t}, map[(1, 1) := TagRow({t}, TagVerified)]), {1}, s.merchant, map[1 := {t}])
  {
    var s1 := Step(s, Starts(1));
    assert s1.p.rows == map[];
    assert PlanTags({t}, s.p.tags, {}).toAdd == {t};
    TwoEvents(s, Starts(1), Applies(1, 1, {t}, Added));
    var plan := PlanTags({t}, s1.p.tags, OwedByOthers(s1.p, s1.running, 1, None) + Owned(s1.p, 1));
    assert plan.toAdd + plan.shared == {t};
    var s2 := Step(s1, Applies(1, 1, {t}, Added));
    assert s2.p.rows == map[(1, 1) := TagRow({t}, TagVerified)] && s2.running == {1} && s2.kits == map[1 := {t}];
  }

  lemma SecondSale(s: Tagging, merchant: set<Tag>, tags: set<Tag>, t: Tag)
    requires t !in tags && s == Tagging(OnProduct(tags + {t}, map[(1, 1) := TagRow({t}, TagVerified)]), {1}, merchant, map[1 := {t}])
    ensures var es := [Starts(2), Applies(2, 2, {t}, Added)];
            Runs(s, es) &&
            After(s, es) == Tagging(OnProduct(tags + {t}, map[(1, 1) := TagRow({t}, TagVerified), (2, 2) := TagRow({t}, TagVerified)]),
                                    {1, 2}, merchant, map[1 := {t}, 2 := {t}])
  {
    var s1 := Step(s, Starts(2));
    assert t in OwedByOthers(s1.p, {1, 2}, 2, None) by {
      assert (1, 1) in s1.p.rows;
    }
    assert s1.running == {1, 2};
    TwoEvents(s, Starts(2), Applies(2, 2, {t}, Added));
    var plan := PlanTags({t}, s1.p.tags, OwedByOthers(s1.p, {1, 2}, 2, None) + Owned(s1.p, 2));
    assert plan.toAdd == {} && plan.shared == {t} && plan.toAdd + plan.shared == {t};
    var s2 := Step(s1, Applies(2, 2, {t}, Added));
    assert s2.p.tags == tags + {t} && s2.kits == map[1 := {t}, 2 := {t}];
    assert s2.p.rows == map[(1, 1) := TagRow({t}, TagVerified), (2, 2) := TagRow({t}, TagVerified)];
  }

  lemma BothEnd(s: Tagging, merchant: set<Tag>, tags: set<Tag>, t: Tag)
    requires t !in tags
    requires s == Tagging(OnProduct(tags + {t}, map[(1, 1) := TagRow({t}, TagVerified), (2, 2) := TagRow({t}, TagVerified)]),
                          {1, 2}, merchant, map[1 := {t}, 2 := {t}])
    ensures var es := [Ends(1, [], Taken), Ends(2, [], Taken)];
            Runs(s, es) && After(s, es) == Tagging(LeftBehind(OnProduct(tags, map[]), t), {}, merchant, map[])
  {
    OwnsOneRow(s.p, (1, 1));
    OwnsOneRow(s.p, (2, 2));
    assert {1, 2} - {1} == {2} && {2} - {2} == {};
    assert t in OwedByOthers(s.p, {2}, 1, None) by {
      assert (2, 2) in s.p.rows;
    }
    assert ToRemove(s.p, {2}, 1) == {};
    var s1 := Step(s, Ends(1, [], Taken));
    assert s1 == Tagging(s.p, {2}, merchant, map[2 := {t}]);
    assert OwedByOthers(s1.p, {}, 2, None) == {};
    assert ToRemove(s1.p, {}, 2) == {t};
    TwoEvents(s, Ends(1, [], Taken), Ends(2, [], Taken));
    assert tags + {t} - {t} == tags;
  }

  lemma TwoSalesLeave(s: Tagging, t: Tag)
    requires Untouched(s) && t !in s.p.tags
    ensures Runs(s, TwoSalesEnd(t))
    ensures After(s, TwoSalesEnd(t)) == Tagging(LeftBehind(s.p, t), {}, s.merchant, map[])
  {
    var first, second := [Starts(1), Applies(1, 1, {t}, Added)], [Starts(2), Applies(2, 2, {t}, Added)];
    FirstSale(s, t);
    SecondSale(After(s, first), s.merchant, s.p.tags, t);
    AfterConcat(s, first, second);
    BothEnd(After(s, first + second), s.merchant, s.p.tags, t);
    AfterConcat(s, first + second, [Ends(1, [], Taken), Ends(2, [], Taken)]);
    assert first + second == [Starts(1), Applies(1, 1, {t}, Added), Starts(2), Applies(2, 2, {t}, Added)];
  }

  /** The merchant then puts the tag on, and the first sale is run once more. */
  function MerchantThenSale(t: Tag): seq<Event> {
    [MerchantAdds(t), Starts(1)] + [Applies(1, 3, {t}, Added), Ends(1, [], Taken)]
  }

  /**
   * The removal with nothing to take off leaves the first sale's row claiming the tag; the merchant
   * then puts it on, and ending that sale's next run takes it off. No request failed.
   */
  lemma LeftoverRowTakesMerchantsTag(s: Tagging, t: Tag)
    requires Untouched(s) && t !in s.p.tags
    ensures Runs(s, TwoSalesEnd(t) + MerchantThenSale(t))
    ensures var after := After(s, TwoSalesEnd(t) + MerchantThenSale(t)); t in after.merchant && t !in after.p.tags
  {
    TwoSalesLeave(s, t);
    var s1 := After(s, TwoSalesEnd(t));
    var s2 := Step(Step(s1, MerchantAdds(t)), Starts(1));
    TwoEvents(s1, MerchantAdds(t), Starts(1));
    OwnsOneRow(s2.p, (1, 1));
    var s3 := Step(s2, Applies(1, 3, {t}, Added));
    assert PlanTags({t}, s2.p.tags, OwedByOthers(s2.p, s2.running, 1, None) + Owned(s2.p, 1)).shared == {t};
    assert t in Owned(s3.p, 1) by {
      assert (1, 3) in s3.p.rows && s3.p.rows[(1, 3)] == TagRow({t}, TagVerified);
    }
    assert s3.running - {1} == {} && OwedByOthers(s3.p, {}, 1, None) == {};
    TwoEvents(s2, Applies(1, 3, {t}, Added), Ends(1, [], Taken));
    AfterConcat(s1, [MerchantAdds(t), Starts(1)], [Applies(1, 3, {t}, Added), Ends(1, [], Taken)]);
    AfterConcat(s, TwoSalesEnd(t), MerchantThenSale(t));
  }

  /** A third sale over the product ends, and the first, running again, takes it over. */
  function ThirdSaleHandsOver(t: Tag): seq<Event> {
    [Starts(3), Starts(1)] + [Ends(3, [Takeover(1, 4, {t}, Added)], Taken)]
  }

  /** And such a row keeps its campaign from tagging a product it takes over: the badge never goes on. */
  lemma LeftoverRowBlocksTakeover(s: Tagging, t: Tag)
    requires Untouched(s) && t !in s.p.tags
    ensures Runs(s, TwoSalesEnd(t) + ThirdSaleHandsOver(t))
    ensures var after := After(s, TwoSalesEnd(t) + ThirdSaleHandsOver(t)); after.running == {1} && t !in after.p.tags
  {
    TwoSalesLeave(s, t);
    var s1 := After(s, TwoSalesEnd(t));
    TwoEvents(s1, Starts(3), Starts(1));
    var s2 := After(s1, [Starts(3), Starts(1)]);
    var handed := Takeover(1, 4, {t}, Added);
    assert s2.running - {3} == {1};
    assert HasRow(s2.p, 1) by {
      assert (1, 1) in s2.p.rows;
    }
    assert [handed][..0] == [];
    assert Handed(s2.p, {1}, 3, []) == s2.p;
    assert Handed(s2.p, {1}, 3, [handed]) == s2.p;
    assert Owned(s2.p, 3) == {};
    OneEvent(s2, Ends(3, [handed], Taken));
    AfterConcat(s1, [Starts(3), Starts(1)], [Ends(3, [handed], Taken)]);
    AfterConcat(s, TwoSalesEnd(t), ThirdSaleHandsOver(t));
  }

  /**
   * A tag that landed on a request that failed is nobody's, and ending the campaign leaves it there;
   * and so it is left by a removal that failed.
   */
  lemma FailedRequestsStrand(s: Tagging, t: Tag)
    requires Untouched(s) && t !in s.p.tags
    ensures var es := [Starts(1), Applies(1, 1, {t}, AddThrew(true))] + [Ends(1, [], Taken)];
            Runs(s, es) && var after := After(s, es);
            after.running == {} && t in after.p.tags && t !in after.merchant
    ensures var es := [Starts(1), Applies(1, 1, {t}, Added)] + [Ends(1, [], RemoveThrew(false))];
            Runs(s, es) && var after := After(s, es);
            after.running == {} && t in after.p.tags && t !in after.merchant
  {
    assert PlanTags({t}, s.p.tags, {}).toAdd == {t};
    TwoEvents(s, Starts(1), Applies(1, 1, {t}, AddThrew(true)));
    var failed := After(s, [Starts(1), Applies(1, 1, {t}, AddThrew(true))]);
    assert failed.running - {1} == {} && Owned(failed.p, 1) == {};
    OneEvent(failed, Ends(1, [], Taken));
    AfterConcat(s, [Starts(1), Applies(1, 1, {t}, AddThrew(true))], [Ends(1, [], Taken)]);
    FirstSale(s, t);
    var tagged := After(s, [Starts(1), Applies(1, 1, {t}, Added)]);
    assert tagged.running - {1} == {};
    OneEvent(tagged, Ends(1, [], RemoveThrew(false)));
    AfterConcat(s, [Starts(1), Applies(1, 1, {t}, Added)], [Ends(1, [], RemoveThrew(false))]);
  }

  // --------------------------------------------------------------- the store

  function AddedOr(results: map<Product, AddResult>, p: Product): AddResult {
    if p in results then results[p] else Added
  }

  function TakenOr(results: map<Product, RemoveResult>, p: Product): RemoveResult {
    if p in results then results[p] else Taken
  }

  function TakeoversOf(takeovers: map<Product, seq<Takeover>>, p: Product): seq<Takeover> {
    if p in takeovers then takeovers[p] else []
  }

  /** Every product's tags and rows, and which campaigns run, updated in place as runs go by. */
  class TagStore {
    var products: map<Product, OnProduct>
    var running: set<Camp>
    ghost const merchant: map<Product, set<Tag>>

    constructor (tags: map<Product, set<Tag>>)
      ensures Valid() && InOrder() && merchant == tags && running == {} && products.Keys == tags.Keys
    {
      products := map p | p in tags :: OnProduct(tags[p], map[]);
      running := {};
      merchant := tags;
    }

    /** The merchant's tags are on every product, and no campaign claims one. */
    ghost predicate Valid()
      reads this
    {
      products.Keys == merchant.Keys && forall p :: p in products ==> Respects(products[p], merchant[p])
    }

    /** And every other tag is on exactly when a running campaign owes it. */
    ghost predicate InOrder()
      reads this
    {
      products.Keys == merchant.Keys && forall p :: p in products ==> Kept(products[p], running, merchant[p])
    }

    /** Starting a campaign keeps the store in order exactly when it has no claim left on a tag that is off. */
    method Start(c: Camp)
      requires Valid() && c !in running
      modifies this`running
      ensures Valid() && running == old(running) + {c}
      ensures old(InOrder()) ==> (InOrder() <==> forall p :: p in products ==> Owned(products[p], c) <= products[p].tags)
    {
      running := running + {c};
      if old(InOrder()) {
        forall p | p in products
          ensures Kept(products[p], running, merchant[p]) <==> Owned(products[p], c) <= products[p].tags
        {
          StartExactly(Tagging(products[p], old(running), merchant[p], map[]), c);
        }
      }
    }

    /** Tags every product a run covers; a kit with nothing in it leaves them all alone. */
    method ApplyCampaignTags(c: Camp, run: RunId, list: seq<Product>, kit: seq<string>, results: map<Product, AddResult>)
      requires Valid() && c in running && forall p :: p in list ==> p in products && Free(products[p], (c, run))
      requires forall i, j :: 0 <= i < j < |list| ==> list[i] != list[j]
      modifies this`products
      ensures Valid() && products.Keys == old(products).Keys
      ensures forall p :: p in products ==>
                products[p] == if p in list && KitTags(kit) != {}
                               then Tried(old(products)[p], running, c, run, KitTags(kit), None, AddedOr(results, p))
                               else old(products)[p]
      ensures old(InOrder()) && KitTags(kit) != {} ==>
                (InOrder() <==> forall p :: p in list ==> AddOk(old(products)[p], KitTags(kit), AddedOr(results, p)))
    {
      var tags := KitTags(kit);
      if tags == {} {
        return;
      }
      for i := 0 to |list|
        invariant Valid() && products.Keys == old(products).Keys
        invariant forall p :: p in products ==>
                    products[p] == if p in list[..i] then Tried(old(products)[p], running, c, run, tags, None, AddedOr(results, p))
                                   else old(products)[p]
      {
        var p := list[i];
        assert list[..i + 1] == list[..i] + [p] && p !in list[..i];
        TriedRespects(products[p], running, merchant[p], c, run, tags, None, AddedOr(results, p));
        products := products[p := Tried(products[p], running, c, run, tags, None, AddedOr(results, p))];
      }
      assert list[..|list|] == list;
      if old(InOrder()) {
        forall p | p in list
          ensures Kept(products[p], running, merchant[p]) <==> AddOk(old(products)[p], tags, AddedOr(results, p))
        {
          TriedExactly(old(products)[p], running, merchant[p], {}, c, run, tags, None, AddedOr(results, p));
        }
      }
    }

    /** Tags each product for whoever takes it over from `c`. */
    method ApplyTakeoverTags(c: Camp, list: seq<Product>, takeovers: map<Product, seq<Takeover>>)
      requires Valid() && forall p :: p in list ==> p in products
      requires forall i, j :: 0 <= i < j < |list| ==> list[i] != list[j]
      modifies this`products
      ensures Valid() && products.Keys == old(products).Keys
      ensures forall p :: p in products ==>
                products[p] == if p in list then Handed(old(products)[p], running, c, TakeoversOf(takeovers, p)) else old(products)[p]
    {
      for i := 0 to |list|
        invariant Valid() && products.Keys == old(products).Keys
        invariant forall p :: p in products ==>
                    products[p] == if p in list[..i] then Handed(old(products)[p], running, c, TakeoversOf(takeovers, p))
                                   else old(products)[p]
      {
        var p := list[i];
        assert list[..i + 1] == list[..i] + [p] && p !in list[..i];
        HandedRespects(products[p], running, merchant[p], c, TakeoversOf(takeovers, p));
        products := products[p := Handed(products[p], running, c, TakeoversOf(takeovers, p))];
      }
      assert list[..|list|] == list;
    }

    /** Takes the campaign's own tags off each product. */
    method RemoveCampaignTags(c: Camp, list: seq<Product>, removals: map<Product, RemoveResult>)
      requires Valid() && forall p :: p in list ==> p in products
      requires forall i, j :: 0 <= i < j < |list| ==> list[i] != list[j]
      modifies this`products
      ensures Valid() && products.Keys == old(products).Keys
      ensures forall p :: p in products ==>
                products[p] == if p in list then Untagged(old(products)[p], running, c, TakenOr(removals, p)) else old(products)[p]
    {
      for i := 0 to |list|
        invariant Valid() && products.Keys == old(products).Keys
        invariant forall p :: p in products ==>
                    products[p] == if p in list[..i] then Untagged(old(products)[p], running, c, TakenOr(removals, p))
                                   else old(products)[p]
      {
        var p := list[i];
        assert list[..i + 1] == list[..i] + [p] && p !in list[..i];
        UntaggedRespects(products[p], running, merchant[p], c, TakenOr(removals, p));
        products := products[p := Untagged(products[p], running, c, TakenOr(removals, p))];
      }
      assert list[..|list|] == list;
    }

    /** The ending of `c` over `p` went in order: no failed add landed, and no needed removal was refused. */
    ghost predicate EndOk(was: OnProduct, left: set<Camp>, c: Camp, ts: seq<Takeover>, removal: RemoveResult) {
      HandedOk(was, left, c, ts) && RemoveOk(Handed(was, left, c, ts), left, c, removal)
    }

    /**
     * Ends a campaign: every product is handed to whoever takes it over, then its own tags come off.
     * The merchant's tags stay on whatever fails; each other tag is on exactly when a running campaign
     * owes it, exactly when every product's ending went in order.
     */
    method EndCampaign(c: Camp, list: seq<Product>, takeovers: map<Product, seq<Takeover>>, removals: map<Product, RemoveResult>)
      requires Valid() && c in running && forall p :: p in list <==> p in products
      requires forall i, j :: 0 <= i < j < |list| ==> list[i] != list[j]
      requires forall p :: p in products ==> Winners(TakeoversOf(takeovers, p), running - {c}, c)
      modifies this
      ensures Valid() && running == old(running) - {c} && products.Keys == old(products).Keys
      ensures forall p :: p in products ==>
                products[p] == Ended(old(products)[p], running, c, TakeoversOf(takeovers, p), TakenOr(removals, p))
      ensures old(InOrder()) ==>
                (InOrder() <==> forall p :: p in products ==>
                   EndOk(old(products)[p], running, c, TakeoversOf(takeovers, p), TakenOr(removals, p)))
    {
      running := running - {c};
      ApplyTakeoverTags(c, list, takeovers);
      RemoveCampaignTags(c, list, removals);
      if old(InOrder()) {
        forall p | p in products
          ensures Kept(products[p], running, merchant[p])
                  <==> EndOk(old(products)[p], running, c, TakeoversOf(takeovers, p), TakenOr(removals, p))
        {
          EndedExactly(old(products)[p], old(running), merchant[p], c, TakeoversOf(takeovers, p), TakenOr(removals, p));
        }
      }
    }
  }
}
