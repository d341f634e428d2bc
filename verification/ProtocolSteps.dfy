/** Each event of the campaign protocol keeps the invariant. */
module ProtocolSteps {
  import opened Wrappers
  import opened Lifecycle
  import opened Ledger
  import opened Protocol
  import opened ProtocolInvariant
  import opened ProtocolFrame

  // ------------------------------------------------------------ claim, plan

  lemma ClaimVariants(w: World, s: State, c: nat, kind: Kind, resume: bool)
    requires Inv(w, s) && Shaped(w, s) && CanClaim(s, c, kind)
    ensures var s' := DoClaim(w, s, c, kind, resume);
            Undone(w, s', c) && forall v :: v in w.defs[c].scope ==> MirrorOk(s', v) && PriceOk(w, s', v)
  {
    var s' := DoClaim(w, s, c, kind, resume);
    assert With(Pricing(s'), c, Prices(s.camps[c])) == Pricing(s);
    forall v | v in w.defs[c].scope
      ensures MirrorOk(s', v) && PriceOk(w, s', v)
      ensures v in s.live && v !in s.camps[c].owed && NoOneElseOwes(s', c, v) ==> Shows(w, s, Pricing(s), v)
    {
      assert MirrorOk(s, v) && PriceOk(w, s, v);
      ClaimVariant(w, s, c, kind, resume, v);
    }
  }

  lemma ClaimKeeps(w: World, s: State, c: nat, kind: Kind, resume: bool)
    requires Inv(w, s) && Shaped(w, s) && CanClaim(s, c, kind) && Clear(w, s, Claim(c, kind, resume))
    ensures Inv(w, DoClaim(w, s, c, kind, resume))
  {
    var s' := DoClaim(w, s, c, kind, resume);
    assert CampOk(w, s, c);
    ClaimVariants(w, s, c, kind, resume);
    forall i: nat | i < |s'.ops| && s'.ops[i].owner == c
      ensures OpOk(w, s', i)
    {
      assert OpOk(w, s, i);
    }
    Assemble(w, s, s', c);
  }

  /** A variant nobody owed before the claim shows its price, and still does unless the claim owes it. */
  lemma ClaimVariant(w: World, s: State, c: nat, kind: Kind, resume: bool, v: Variant)
    requires Shaped(w, s) && CanClaim(s, c, kind) && v in w.defs[c].scope && MirrorOk(s, v) && PriceOk(w, s, v)
    ensures MirrorOk(DoClaim(w, s, c, kind, resume), v) && PriceOk(w, DoClaim(w, s, c, kind, resume), v)
    ensures v in s.live && v !in s.camps[c].owed && NoOneElseOwes(DoClaim(w, s, c, kind, resume), c, v) ==>
              Shows(w, s, Pricing(s), v)
  {
    var s' := DoClaim(w, s, c, kind, resume);
    var k, k' := s.camps[c], s'.camps[c];
    if forall d: nat :: d < |s.camps| ==> !Dirty(s', d, v) {
      forall d: nat | d < |s.camps|
        ensures !Dirty(s, d, v)
      {
        assert !Dirty(s', d, v);
      }
    }
    if NoOneElseOwes(s', c, v) && v !in k.owed {
      forall d: nat | d < |s.camps|
        ensures v !in s.camps[d].owed
      {
        if d != c {
          assert v !in s'.camps[d].owed;
        }
      }
    }
    if v !in k'.owed {
      assert (kind == Apply) == Prices(k);
      assert Pricing(s') == Pricing(s) by {
        assert Prices(k') == Prices(k);
      }
      if forall d: nat :: d < |s.camps| ==> v !in s'.camps[d].owed {
        assert NoOneElseOwes(s', c, v);
      }
    }
  }

  lemma OpenKeeps(w: World, s: State, c: nat, ledgered: set<Variant>)
    requires Inv(w, s) && CanOpen(w, s, c)
    ensures Inv(w, DoOpen(w, s, c, ledgered))
  {
    var s' := DoOpen(w, s, c, ledgered);
    assert CampOk(w, s, c);
    ApartWhenBusy(w, s, c);
    OpenCamp(w, s, c, ledgered);
    OpenOps(w, s, c, ledgered);
    forall v | v in w.defs[c].scope
      ensures MirrorOk(s', v) && PriceOk(w, s', v)
    {
      OpenVariant(w, s, c, ledgered, v);
    }
    Assemble(w, s, s', c);
  }

  /** Operations of a campaign that plans are all over. */
  lemma OpenOps(w: World, s: State, c: nat, ledgered: set<Variant>)
    requires Inv(w, s) && CanOpen(w, s, c)
    ensures var s' := DoOpen(w, s, c, ledgered); forall i: nat :: i < |s'.ops| && s'.ops[i].owner == c ==> OpOk(w, s', i)
  {
    var s' := DoOpen(w, s, c, ledgered);
    assert CampOk(w, s, c);
    forall i: nat | i < |s'.ops| && s'.ops[i].owner == c
      ensures OpOk(w, s', i)
    {
      assert OpOk(w, s, i);
    }
  }

  lemma OpenVariant(w: World, s: State, c: nat, ledgered: set<Variant>, v: Variant)
    requires Inv(w, s) && CanOpen(w, s, c) && v in w.defs[c].scope
    ensures MirrorOk(DoOpen(w, s, c, ledgered), v) && PriceOk(w, DoOpen(w, s, c, ledgered), v)
  {
    NotDirty(w, s, c, v);
    assert MirrorOk(s, v);
    OpenShows(w, s, c, ledgered, v);
  }

  lemma OpenCamp(w: World, s: State, c: nat, ledgered: set<Variant>)
    requires Inv(w, s) && CanOpen(w, s, c)
    ensures CampOk(w, DoOpen(w, s, c, ledgered), c)
  {
    var s' := DoOpen(w, s, c, ledgered);
    var k' := s'.camps[c];
    assert CampOk(w, s, c);
    OpenRows(w, s, c, ledgered);
    OpenRun(w, s', c);
    if k'.process.Some? {
      OpenProcess(w, s, s', c);
    }
  }

  /** The rows a run opens with: pending, at the price resolution gives them. */
  lemma OpenRows(w: World, s: State, c: nat, ledgered: set<Variant>)
    requires Inv(w, s) && CanOpen(w, s, c)
    ensures var s' := DoOpen(w, s, c, ledgered);
            NewRun(w, s', c) && s'.live == s.live && s'.mirror == s.mirror && RowsMirrored(s', c)
  {
    var s' := DoOpen(w, s, c, ledgered);
    var k := s.camps[c];
    var rows := s'.camps[c].run.value.rows;
    assert CampOk(w, s, c);
    assert Pricing(s') == With(Pricing(s), c, k.process.value.kind == Apply);
    forall v | v in rows
      ensures NewRow(w, Pricing(s'), rows[v], v) && v in w.defs[c].scope
      ensures v in s.live && v in s.mirror ==> s.mirror[v] == s.live[v]
      ensures Entry(c, s.runs, v, rows[v].intended) in s'.ledgered
    {
      NotDirty(w, s, c, v);
      assert MirrorOk(s, v);
      assert Entry(c, s.runs, v, rows[v].intended) in Entries(c, s.runs, rows);
    }
  }

  predicate NewRow(w: World, p: set<nat>, r: Row, v: Variant) {
    Target(w, p, v).Priced? && r == Row(Target(w, p, v).price, Target(w, p, v).clamped, Pending, None, 0)
  }

  predicate NewRun(w: World, s: State, c: nat)
    requires Shaped(w, s) && c < |s.camps|
  {
    LiveRun(s.camps[c]) &&
    var run := s.camps[c].run.value;
    && run.op.None? && s.camps[c].status == ClaimState(run.kind)
    && (forall v :: v in run.rows ==> NewRow(w, Pricing(s), run.rows[v], v) && v in w.defs[c].scope && v in s.camps[c].owed)
    && (forall v :: v in run.rows ==> Entry(c, run.no, v, run.rows[v].intended) in s.ledgered)
    && s.camps[c].owed <= w.defs[c].scope
  }

  lemma OpenRun(w: World, s: State, c: nat)
    requires Shaped(w, s) && c < |s.camps| && NewRun(w, s, c)
    ensures RunOk(w, s, c) && OwedOk(w, s, c)
  {
  }

  lemma OpenProcess(w: World, s: State, s': State, c: nat)
    requires Shaped(w, s) && Shaped(w, s') && c < |s.camps| && NewRun(w, s', c) && RowsMirrored(s', c)
    requires s.camps[c].process.Some? && s'.camps[c].process.Some? && ProcessOk(w, s, c)
    requires s.camps[c].process.value.phase == Claimed
    requires s'.camps[c].process.value == s.camps[c].process.value.(phase := Opened)
    requires s'.camps[c].run.value.kind == s.camps[c].process.value.kind && s'.camps[c].status == s.camps[c].status
    requires s'.ops == s.ops && s'.live == s.live && s'.camps == s.camps[c := s'.camps[c]]
    ensures ProcessOk(w, s', c)
  {
    var b := s.camps[c].process.value.before;
    assert With(Pricing(s'), c, b.prices) == With(Pricing(s), c, b.prices);
    assert OpRunning(s', c) == OpRunning(s, c);
    forall v | v in w.defs[c].scope && v in s'.live && v !in b.owed && NoOneElseOwes(s', c, v)
      ensures Shows(w, s', With(Pricing(s'), c, b.prices), v)
    {
      assert NoOneElseOwes(s, c, v) by {
        forall d: nat | d < |s.camps| && d != c
          ensures v !in s.camps[d].owed
        {
          assert v !in s'.camps[d].owed;
        }
      }
    }
  }

  /** While `c` holds a claim nothing has been sent on, no live run touches its variants. */
  lemma NotDirty(w: World, s: State, c: nat, v: Variant)
    requires Inv(w, s) && c < |s.camps| && At(s.camps[c], Claimed) && v in w.defs[c].scope
    ensures forall d: nat :: d < |s.camps| ==> !Dirty(s, d, v)
  {
    assert CampOk(w, s, c) && Busy(s, c);
    forall d: nat | d < |s.camps|
      ensures !Dirty(s, d, v)
    {
      assert CampOk(w, s, d);
      if d != c && LiveRun(s.camps[d]) {
        assert Busy(s, d) && Disjoint(w, c, d);
      }
    }
  }

  /** The claim is one that does not change who prices what: the plan resolves as before it. */
  lemma SamePricing(w: World, s: State, c: nat)
    requires Inv(w, s) && c < |s.camps| && At(s.camps[c], Claimed)
    requires (s.camps[c].process.value.kind == Apply) == s.camps[c].process.value.before.prices
    ensures With(Pricing(s), c, s.camps[c].process.value.kind == Apply) == Pricing(s)
  {
    assert CampOk(w, s, c);
  }

  /** A variant the plan leaves out already shows its price, or was settled by the run resumed. */
  lemma OpenShows(w: World, s: State, c: nat, ledgered: set<Variant>, v: Variant)
    requires Inv(w, s) && CanOpen(w, s, c) && v in w.defs[c].scope
    requires forall d: nat :: d < |s.camps| ==> !Dirty(s, d, v)
    ensures PriceOk(w, DoOpen(w, s, c, ledgered), v)
  {
    var s' := DoOpen(w, s, c, ledgered);
    var k := s.camps[c];
    var pr := k.process.value;
    var p := With(Pricing(s), c, pr.kind == Apply);
    assert Pricing(s') == p;
    assert CampOk(w, s, c);
    if v in s.live && (forall d: nat :: d < |s.camps| ==> v !in s'.camps[d].owed) && Target(w, p, v).Priced? {
      if !Wanted(w, p, s.mirror, v) {
        assert MirrorOk(s, v);
      } else {
        NotOwedBefore(w, s, c, ledgered, v);
        assert PriceOk(w, s, v) by {
          assert Inv(w, s);
        }
        forall d: nat | d < |s.camps|
          ensures v !in s.camps[d].owed
        {
          if d != c {
            assert v !in s'.camps[d].owed;
          }
        }
        SamePricing(w, s, c);
      }
    }
  }

  /** Wanted, yet nobody owes it after the plan: then the claim changed nothing, and nobody owed it before. */
  lemma NotOwedBefore(w: World, s: State, c: nat, ledgered: set<Variant>, v: Variant)
    requires Inv(w, s) && CanOpen(w, s, c) && v in w.defs[c].scope
    requires v !in DoOpen(w, s, c, ledgered).camps[c].owed
    requires Wanted(w, With(Pricing(s), c, s.camps[c].process.value.kind == Apply), s.mirror, v)
    ensures v !in s.camps[c].owed
    ensures (s.camps[c].process.value.kind == Apply) == s.camps[c].process.value.before.prices
  {
    var k := s.camps[c];
    var pr := k.process.value;
    assert RunOk(w, s, c) && OwedOk(w, s, c) && ProcessOk(w, s, c) by {
      assert CampOk(w, s, c);
    }
    var plan := Plan(w, s, c);
    if plan.Keys <= ledgered {
      assert v !in plan;
      assert pr.resume && pr.kind == Apply && !ResumeSends(Prior(k, Apply), v);
      assert k.run.Some? && k.run.value.kind == Apply && RowOk(s, k.run.value.rows[v], v);
    }
  }
}
