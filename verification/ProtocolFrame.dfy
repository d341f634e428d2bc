/** A step of one campaign leaves every other campaign's promises standing. */
module ProtocolFrame {
  import opened Wrappers
  import opened Ledger
  import opened Protocol
  import opened ProtocolInvariant

  /** Campaigns outside both sets alike, or covering elsewhere, do not change who wins `v`. */
  lemma {:induction false} WinnerFrame(w: World, p: set<nat>, q: set<nat>, v: Variant, n: nat)
    requires n <= |w.defs|
    requires forall c: nat :: c < |w.defs| && v in w.defs[c].scope ==> (c in p <==> c in q)
    ensures Winner(w, p, v, n) == Winner(w, q, v, n)
  {
    if n > 0 {
      WinnerFrame(w, p, q, v, n - 1);
    }
  }

  lemma TargetFrame(w: World, p: set<nat>, q: set<nat>, v: Variant)
    requires forall c: nat :: c < |w.defs| && v in w.defs[c].scope ==> (c in p <==> c in q)
    ensures Target(w, p, v) == Target(w, q, v)
  {
    WinnerFrame(w, p, q, v, |w.defs|);
  }

  /** `s'` differs from `s` only in what campaign `c` holds and in the variants it covers. */
  ghost predicate Local(w: World, s: State, s': State, c: nat) {
    && Shaped(w, s) && Shaped(w, s') && c < |s.camps|
    && (forall d: nat :: d < |s.camps| && d != c ==> s'.camps[d] == s.camps[d])
    && (forall v :: v !in w.defs[c].scope ==> SameAt(s, s', v))
    && s'.live.Keys <= s.live.Keys
    && |s.ops| <= |s'.ops|
    && (forall i: nat :: i < |s.ops| && s.ops[i].owner != c ==> s'.ops[i] == s.ops[i])
    && (forall i: nat :: i < |s.ops| && s.ops[i].owner == c ==> s'.ops[i].owner == c)
    && (forall i: nat :: |s.ops| <= i < |s'.ops| ==> s'.ops[i].owner == c)
    && s.ledgered <= s'.ledgered
    && s.camps[c].owed <= w.defs[c].scope && s'.camps[c].owed <= w.defs[c].scope
  }

  predicate SameAt(s: State, s': State, v: Variant) {
    && (v in s.live <==> v in s'.live) && (v in s.live ==> s.live[v] == s'.live[v])
    && (v in s.mirror <==> v in s'.mirror) && (v in s.mirror ==> s.mirror[v] == s'.mirror[v])
  }

  ghost predicate Apart(w: World, s: State, c: nat)
    requires Shaped(w, s) && c < |s.camps|
  {
    forall d: nat :: d < |s.camps| && d != c && Busy(s, d) ==> Disjoint(w, c, d)
  }

  lemma ApartWhenBusy(w: World, s: State, c: nat)
    requires Inv(w, s) && c < |s.camps| && Busy(s, c)
    ensures Apart(w, s, c)
  {
  }

  lemma BusyFrame(w: World, s: State, s': State, c: nat, d: nat)
    requires Local(w, s, s', c) && d < |s.camps| && d != c
    ensures OpRunning(s', d) == OpRunning(s, d)
    ensures Busy(s', d) == Busy(s, d)
  {
    if OpRunning(s, d) {
      var i :| 0 <= i < |s.ops| && s.ops[i].owner == d && !s.ops[i].done;
      assert s'.ops[i] == s.ops[i];
    }
    if OpRunning(s', d) {
      var i :| 0 <= i < |s'.ops| && s'.ops[i].owner == d && !s'.ops[i].done;
      assert i < |s.ops| && s'.ops[i] == s.ops[i];
    }
  }

  lemma PricingFrame(w: World, s: State, s': State, c: nat, d: nat, member: bool, v: Variant)
    requires Local(w, s, s', c) && d < |s.camps| && d != c && v !in w.defs[c].scope
    ensures Target(w, Pricing(s'), v) == Target(w, Pricing(s), v)
    ensures Target(w, With(Pricing(s'), d, member), v) == Target(w, With(Pricing(s), d, member), v)
  {
    forall e: nat | e < |w.defs| && v in w.defs[e].scope
      ensures e in Pricing(s') <==> e in Pricing(s)
    {
      assert e != c;
    }
    TargetFrame(w, Pricing(s'), Pricing(s), v);
    TargetFrame(w, With(Pricing(s'), d, member), With(Pricing(s), d, member), v);
  }

  lemma HoldsRunFrame(w: World, s: State, s': State, c: nat, d: nat, i: nat)
    requires Local(w, s, s', c) && d < |s.camps| && d != c && HoldsRun(s, d, i)
    ensures HoldsRun(s', d, i) && s'.ops[i] == s.ops[i]
  {
  }

  lemma RunFrame(w: World, s: State, s': State, c: nat, d: nat)
    requires Local(w, s, s', c) && Apart(w, s, c) && d < |s.camps| && d != c && RunOk(w, s, d)
    ensures RunOk(w, s', d)
  {
    var k := s.camps[d];
    if k.run.Some? {
      if k.run.value.op.Some? {
        HoldsRunFrame(w, s, s', c, d, k.run.value.op.value);
      }
      if InProgress(k) {
        assert Busy(s, d);
        forall v | v in k.run.value.rows
          ensures Target(w, Pricing(s'), v) == Target(w, Pricing(s), v) && SameAt(s, s', v)
        {
          assert v in w.defs[d].scope && v !in w.defs[c].scope;
          PricingFrame(w, s, s', c, d, true, v);
        }
      }
    }
  }

  lemma ProcessFrame(w: World, s: State, s': State, c: nat, d: nat)
    requires Local(w, s, s', c) && Apart(w, s, c) && d < |s.camps| && d != c
    requires RunOk(w, s, d) && ProcessOk(w, s, d)
    ensures ProcessOk(w, s', d)
  {
    var k := s.camps[d];
    if k.process.Some? {
      assert Busy(s, d);
      BusyFrame(w, s, s', c, d);
      forall v | v in w.defs[d].scope
        ensures SameAt(s, s', v)
      {
      }
      var pr := k.process.value;
      if k.run.Some? && HearingOk(s, d) {
        HearingFrame(w, s, s', c, d);
      }
      if (pr.phase == Claimed || pr.phase == Opened) {
        UndoneFrame(w, s, s', c, d);
      }
    }
  }

  lemma HearingFrame(w: World, s: State, s': State, c: nat, d: nat)
    requires Local(w, s, s', c) && d < |s.camps| && d != c && RunOk(w, s, d)
    requires s.camps[d].process.Some? && s.camps[d].run.Some? && HearingOk(s, d)
    requires OpRunning(s', d) == OpRunning(s, d) && forall v :: v in w.defs[d].scope ==> SameAt(s, s', v)
    ensures HearingOk(s', d)
  {
    var op := s.camps[d].process.value.op;
    if op.Some? {
      HoldsRunFrame(w, s, s', c, d, op.value);
    }
  }

  lemma UndoneFrame(w: World, s: State, s': State, c: nat, d: nat)
    requires Local(w, s, s', c) && Apart(w, s, c) && d < |s.camps| && d != c
    requires s.camps[d].process.Some? && Undone(w, s, d)
    ensures Undone(w, s', d)
  {
    var b := s.camps[d].process.value.before;
    assert Busy(s, d);
    forall v | v in w.defs[d].scope && v in s'.live && v !in b.owed && NoOneElseOwes(s', d, v)
      ensures Shows(w, s', With(Pricing(s'), d, b.prices), v)
    {
      assert v !in w.defs[c].scope && SameAt(s, s', v);
      PricingFrame(w, s, s', c, d, b.prices, v);
      assert NoOneElseOwes(s, d, v) by {
        forall e: nat | e < |s.camps| && e != d
          ensures v !in s.camps[e].owed
        {
          assert v !in s'.camps[e].owed;
        }
      }
    }
  }

  lemma OpFrame(w: World, s: State, s': State, c: nat, i: nat)
    requires Local(w, s, s', c) && Apart(w, s, c)
    requires i < |s.ops| && s.ops[i].owner != c && OpOk(w, s, i)
    ensures OpOk(w, s', i)
  {
    var op := s.ops[i];
    var d := op.owner;
    assert s'.ops[i] == op && s'.camps[d] == s.camps[d];
    if !op.done || (HoldsLatest(s, i) && InProgress(s.camps[d])) {
      if !op.done {
        assert OpRunning(s, d);
      }
      assert Busy(s, d);
      forall v | v in w.defs[d].scope
        ensures SameAt(s, s', v)
      {
      }
    }
    if !op.done {
      HoldsRunFrame(w, s, s', c, d, i);
      forall j | 0 <= j < |s'.ops| && j != i && !s'.ops[j].done
        ensures s'.ops[j].owner != d
      {
        if j < |s.ops| && s.ops[j].owner != c {
          assert s'.ops[j] == s.ops[j];
        }
      }
    }
  }

  lemma VariantFrame(w: World, s: State, s': State, c: nat, v: Variant)
    requires Inv(w, s) && Local(w, s, s', c) && v !in w.defs[c].scope
    requires CampOk(w, s', c)
    ensures MirrorOk(s', v) && PriceOk(w, s', v)
  {
    assert CampOk(w, s, c) && CampOk(w, s', c);
    forall e: nat | e < |w.defs| && v in w.defs[e].scope
      ensures e in Pricing(s') <==> e in Pricing(s)
    {
      assert e != c;
    }
    TargetFrame(w, Pricing(s'), Pricing(s), v);
    VariantKeeps(w, s, s', v);
  }

  /** Nothing about `v` changed, no one stopped writing it and no one stopped owing it. */
  lemma VariantKeeps(w: World, s: State, s': State, v: Variant)
    requires Shaped(w, s) && Shaped(w, s') && MirrorOk(s, v) && PriceOk(w, s, v) && SameAt(s, s', v)
    requires Target(w, Pricing(s'), v) == Target(w, Pricing(s), v)
    requires forall d: nat :: d < |s.camps| && Dirty(s, d, v) ==> Dirty(s', d, v)
    requires forall d: nat :: d < |s.camps| && v in s.camps[d].owed ==> v in s'.camps[d].owed
    ensures MirrorOk(s', v) && PriceOk(w, s', v)
  {
    if forall d: nat :: d < |s.camps| ==> !Dirty(s', d, v) {
      forall d: nat | d < |s.camps|
        ensures !Dirty(s, d, v)
      {
        assert !Dirty(s', d, v);
      }
    }
    if forall d: nat :: d < |s.camps| ==> v !in s'.camps[d].owed {
      forall d: nat | d < |s.camps|
        ensures v !in s.camps[d].owed
      {
        assert v !in s'.camps[d].owed;
      }
    }
  }

  /** A local step that leaves its own campaign, operations and variants in order keeps the invariant. */
  lemma Assemble(w: World, s: State, s': State, c: nat)
    requires Inv(w, s) && Local(w, s, s', c) && Apart(w, s, c)
    requires CampOk(w, s', c)
    requires forall i: nat :: i < |s'.ops| && s'.ops[i].owner == c ==> OpOk(w, s', i)
    requires forall v :: v in w.defs[c].scope ==> MirrorOk(s', v) && PriceOk(w, s', v)
    requires s'.accepted <= s'.ledgered
    ensures Inv(w, s')
  {
    forall d: nat | d < |s.camps|
      ensures CampOk(w, s', d)
    {
      if d != c {
        assert CampOk(w, s, d);
        RunFrame(w, s, s', c, d);
        ProcessFrame(w, s, s', c, d);
      }
    }
    forall i: nat | i < |s'.ops|
      ensures OpOk(w, s', i)
    {
      if s'.ops[i].owner != c {
        assert OpOk(w, s, i);
        OpFrame(w, s, s', c, i);
      }
    }
    forall d: nat, e: nat | d < |s.camps| && e < |s.camps| && d != e && Busy(s', d) && Busy(s', e)
      ensures Disjoint(w, d, e)
    {
      if d != c {
        BusyFrame(w, s, s', c, d);
      }
      if e != c {
        BusyFrame(w, s, s', c, e);
      }
    }
    forall v: Variant
      ensures MirrorOk(s', v) && PriceOk(w, s', v)
    {
      if v !in w.defs[c].scope {
        VariantFrame(w, s, s', c, v);
      }
    }
  }

  /** Only what campaign `c` says changed, and not whether it prices. */
  ghost predicate OnlyCamp(w: World, s: State, s': State, c: nat) {
    && Shaped(w, s) && Shaped(w, s') && c < |s.camps| && c < |s'.camps|
    && s' == s.(camps := s.camps[c := s'.camps[c]])
    && Prices(s'.camps[c]) == Prices(s.camps[c])
    && s'.camps[c].owed <= w.defs[c].scope
  }

  /** `v` was given up by `c`, being written or owed, only once it was right. */
  ghost predicate GivesUpRight(w: World, s: State, s': State, c: nat)
    requires Shaped(w, s) && Shaped(w, s') && c < |s.camps|
  {
    forall v :: v in w.defs[c].scope ==>
      && (Dirty(s, c, v) ==> Dirty(s', c, v) || (v in s'.live && v in s'.mirror ==> s'.mirror[v] == s'.live[v]))
      && (v in s.camps[c].owed ==> v in s'.camps[c].owed || Shows(w, s', Pricing(s), v))
  }

  lemma CampStep(w: World, s: State, s': State, c: nat)
    requires Inv(w, s) && OnlyCamp(w, s, s', c) && Busy(s, c)
    requires GivesUpRight(w, s, s', c)
    requires CampOk(w, s', c)
    requires forall i: nat :: i < |s.ops| && s.ops[i].owner == c ==> OpOk(w, s', i)
    ensures Inv(w, s')
  {
    assert CampOk(w, s, c);
    ApartWhenBusy(w, s, c);
    assert Pricing(s') == Pricing(s);
    forall v | v in w.defs[c].scope
      ensures MirrorOk(s', v) && PriceOk(w, s', v)
    {
      assert MirrorOk(s, v) && PriceOk(w, s, v);
      CampVariant(w, s, s', c, v);
    }
    Assemble(w, s, s', c);
  }

  lemma CampVariant(w: World, s: State, s': State, c: nat, v: Variant)
    requires OnlyCamp(w, s, s', c) && GivesUpRight(w, s, s', c) && v in w.defs[c].scope
    requires MirrorOk(s, v) && PriceOk(w, s, v) && Pricing(s') == Pricing(s)
    ensures MirrorOk(s', v) && PriceOk(w, s', v)
  {
    if forall d: nat :: d < |s.camps| ==> !Dirty(s', d, v) {
      if !Dirty(s, c, v) {
        forall d: nat | d < |s.camps|
          ensures !Dirty(s, d, v)
        {
          assert !Dirty(s', d, v);
        }
      } else {
        assert !Dirty(s', c, v);
      }
    }
    if forall d: nat :: d < |s.camps| ==> v !in s'.camps[d].owed {
      if v !in s.camps[c].owed {
        forall d: nat | d < |s.camps|
          ensures v !in s.camps[d].owed
        {
          assert v !in s'.camps[d].owed;
        }
      }
    }
  }
}
