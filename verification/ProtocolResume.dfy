/** A run cut anywhere and resumed ends where an uninterrupted one does. */
module ProtocolResume {
  import opened Wrappers
  import opened Lifecycle
  import opened Ledger
  import opened Protocol
  import opened ProtocolInvariant
  import opened ProtocolTheorems
  import opened ProtocolRest
  import opened ProtocolPromises

  /** The step is campaign `c`'s own, applying: nobody else acts and it is not reverted. */
  predicate OwnApply(s: State, e: Event, c: nat) {
    match e
    case Claim(d, kind, _) => d == c && kind == Apply
    case OpWrite(i, _) => i < |s.ops| && s.ops[i].owner == c
    case OpRefuse(i, _) => i < |s.ops| && s.ops[i].owner == c
    case OpEnd(i) => i < |s.ops| && s.ops[i].owner == c
    case Delete(_) => false
    case _ => e.c == c
  }

  /** A run of such steps: applies of `c`, cut, killed, reclaimed and resumed any number of times. */
  predicate Applies(w: World, s: State, es: seq<Event>, c: nat)
    decreases |es|
  {
    es == [] ||
    (Enabled(w, s, es[0]) && Clear(w, s, es[0]) && OwnApply(s, es[0], c) && Applies(w, Step(w, s, es[0]), es[1..], c))
  }

  /** No row on its way for `v`, and only applies are under way. */
  predicate Spared(s: State, c: nat, v: Variant)
    requires c < |s.camps|
  {
    && !Dirty(s, c, v)
    && (forall i :: 0 <= i < |s.ops| && s.ops[i].owner == c && !s.ops[i].done ==> v !in s.ops[i].sent)
  }

  predicate ApplyOnly(s: State, c: nat)
    requires c < |s.camps|
  {
    s.camps[c].process.Some? ==> s.camps[c].process.value.kind == Apply
  }

  /** Variants campaign `c` cannot price: out of its scope, or left alone by whoever would win them. */
  predicate LeftAlone(w: World, s: State, c: nat, v: Variant)
    requires c < |w.defs|
  {
    v !in w.defs[c].scope || !Target(w, With(Pricing(s), c, true), v).Priced?
  }

  lemma OwnStepPricing(w: World, s: State, e: Event, c: nat)
    requires c < |s.camps| && Enabled(w, s, e) && OwnApply(s, e, c)
    ensures c < |Step(w, s, e).camps|
    ensures forall d: nat :: d < |s.camps| && d != c ==> Step(w, s, e).camps[d] == s.camps[d]
    ensures With(Pricing(Step(w, s, e)), c, true) == With(Pricing(s), c, true)
  {
    var s' := Step(w, s, e);
    forall d: nat | d < |s.camps| && d != c
      ensures s'.camps[d] == s.camps[d]
    {
      OthersStay(w, s, e, d);
    }
    assert |s'.camps| == |s.camps|;
  }

  /** `v` shows what it did and nothing is on its way to it. */
  predicate StillSpared(s: State, s': State, c: nat, v: Variant)
    requires c < |s'.camps|
  {
    Spared(s', c, v) && ApplyOnly(s', c) && (v in s'.live <==> v in s.live) && (v in s.live ==> s'.live[v] == s.live[v])
  }

  lemma OwnStepSpares(w: World, s: State, e: Event, c: nat, v: Variant)
    requires c < |s.camps| && Enabled(w, s, e) && OwnApply(s, e, c)
    requires LeftAlone(w, s, c, v) && Spared(s, c, v) && ApplyOnly(s, c)
    ensures var s' := Step(w, s, e);
            c < |s'.camps| && StillSpared(s, s', c, v)
  {
    if e.OpWrite? || e.OpRefuse? || e.OpEnd? {
      OpStepSpares(w, s, e, c, v);
    } else if e.Write? || e.Refuse? {
      SendStepSpares(w, s, e, c, v);
    } else {
      LedgerStepSpares(w, s, e, c, v);
    }
  }

  lemma OpStepSpares(w: World, s: State, e: Event, c: nat, v: Variant)
    requires c < |s.camps| && Enabled(w, s, e) && OwnApply(s, e, c) && (e.OpWrite? || e.OpRefuse? || e.OpEnd?)
    requires Spared(s, c, v) && ApplyOnly(s, c)
    ensures var s' := Step(w, s, e);
            c < |s'.camps| && StillSpared(s, s', c, v)
  {
    if e.OpWrite? {
      OpWriteSpares(s, c, e.i, e.v, v);
    } else {
      OpTellsSpares(w, s, e, c, v);
    }
  }

  lemma SendStepSpares(w: World, s: State, e: Event, c: nat, v: Variant)
    requires c < |s.camps| && Enabled(w, s, e) && OwnApply(s, e, c) && (e.Write? || e.Refuse?)
    requires Spared(s, c, v) && ApplyOnly(s, c)
    ensures var s' := Step(w, s, e);
            c < |s'.camps| && StillSpared(s, s', c, v)
  {
    if e.Write? {
      WriteSpares(s, c, e.v, v);
    } else {
      RefuseSpares(s, c, e.v, e.landed, v);
    }
  }

  /** Steps that touch no price and start no run. */
  lemma QuietSpares(w: World, s: State, e: Event, c: nat, v: Variant)
    requires c < |s.camps| && Enabled(w, s, e) && OwnApply(s, e, c) && Spared(s, c, v) && ApplyOnly(s, c)
    requires !e.Open? && !e.Submit? && !e.OpWrite? && !e.OpRefuse? && !e.OpEnd? && !e.Write? && !e.Refuse?
    ensures var s' := Step(w, s, e);
            c < |s'.camps| && StillSpared(s, s', c, v)
  {
  }

  /** A row Shopify refused, or an operation it ended. */
  lemma OpTellsSpares(w: World, s: State, e: Event, c: nat, v: Variant)
    requires c < |s.camps| && Enabled(w, s, e) && (e.OpRefuse? || e.OpEnd?) && Spared(s, c, v) && ApplyOnly(s, c)
    ensures var s' := Step(w, s, e);
            c < |s'.camps| && StillSpared(s, s', c, v)
  {
  }

  lemma WriteSpares(s: State, c: nat, u: Variant, v: Variant)
    requires CanSend(s, c, u) && Spared(s, c, v) && ApplyOnly(s, c)
    ensures StillSpared(s, DoWrite(s, c, u), c, v)
  {
  }

  lemma RefuseSpares(s: State, c: nat, u: Variant, landed: bool, v: Variant)
    requires CanSend(s, c, u) && Spared(s, c, v) && ApplyOnly(s, c)
    ensures StillSpared(s, DoRefuse(s, c, u, landed), c, v)
  {
  }

  lemma OpWriteSpares(s: State, c: nat, i: nat, u: Variant, v: Variant)
    requires c < |s.camps| && CanOpWrite(s, i, u) && s.ops[i].owner == c && Spared(s, c, v) && ApplyOnly(s, c)
    ensures var s' := DoOpWrite(s, i, u);
            c < |s'.camps| && StillSpared(s, s', c, v)
  {
  }

  lemma OpenSpares(w: World, s: State, c: nat, ledgered: set<Variant>, v: Variant)
    requires CanOpen(w, s, c) && LeftAlone(w, s, c, v) && Spared(s, c, v) && ApplyOnly(s, c)
    ensures StillSpared(s, DoOpen(w, s, c, ledgered), c, v)
  {
    assert v !in Plan(w, s, c);
  }

  lemma SubmitSpares(s: State, c: nat, v: Variant)
    requires CanSubmit(s, c) && Spared(s, c, v) && ApplyOnly(s, c)
    ensures StillSpared(s, DoSubmit(s, c), c, v)
  {
  }

  lemma LedgerStepSpares(w: World, s: State, e: Event, c: nat, v: Variant)
    requires c < |s.camps| && Enabled(w, s, e) && OwnApply(s, e, c)
    requires LeftAlone(w, s, c, v) && Spared(s, c, v) && ApplyOnly(s, c)
    requires !e.OpWrite? && !e.OpRefuse? && !e.OpEnd? && !e.Write? && !e.Refuse?
    ensures var s' := Step(w, s, e);
            c < |s'.camps| && StillSpared(s, s', c, v)
  {
    if e.Open? {
      OpenSpares(w, s, c, e.ledgered, v);
    } else if e.Submit? {
      SubmitSpares(s, c, v);
    } else {
      QuietSpares(w, s, e, c, v);
    }
  }

  lemma {:induction false} AppliesSpare(w: World, s: State, es: seq<Event>, c: nat, v: Variant)
    requires Inv(w, s) && c < |s.camps| && Applies(w, s, es, c)
    requires LeftAlone(w, s, c, v) && Spared(s, c, v) && ApplyOnly(s, c)
    ensures Runs(w, s, es)
    ensures v in After(w, s, es).live <==> v in s.live
    ensures v in s.live ==> After(w, s, es).live[v] == s.live[v]
    decreases |es|
  {
    if es != [] {
      OwnStepSpares(w, s, es[0], c, v);
      OwnStepPricing(w, s, es[0], c);
      StepKeeps(w, s, es[0]);
      AppliesSpare(w, Step(w, s, es[0]), es[1..], c, v);
    }
  }

  lemma {:induction false} AppliesOnlyItself(w: World, s: State, es: seq<Event>, c: nat)
    requires Inv(w, s) && Rests(s) && c < |s.camps| && Applies(w, s, es, c)
    ensures Runs(w, s, es) && Inv(w, After(w, s, es)) && Rests(After(w, s, es))
    ensures forall d: nat :: d < |s.camps| && d != c ==> After(w, s, es).camps[d] == s.camps[d]
    ensures With(Pricing(After(w, s, es)), c, true) == With(Pricing(s), c, true)
    decreases |es|
  {
    if es != [] {
      OwnStepPricing(w, s, es[0], c);
      StepKeeps(w, s, es[0]);
      StepRest(w, s, es[0]);
      AppliesOnlyItself(w, Step(w, s, es[0]), es[1..], c);
    }
  }

  /** Where an apply of `c` that ended clean leaves a variant nobody else has work on. */
  lemma CleanApplyShows(w: World, s: State, es: seq<Event>, c: nat, v: Variant)
    requires Inv(w, s) && Rests(s) && c < |s.camps| && Applies(w, s, es, c)
    requires AtRest(s.camps[c]) && DecidedByAll(w, s, v) && v in s.live
    ensures Runs(w, s, es)
    ensures var a := After(w, s, es);
            Shaped(w, a) && (AtRest(a.camps[c]) && a.camps[c].status == Active && v in a.live ==>
              a.live[v] == if LeftAlone(w, s, c, v) then s.live[v] else Target(w, With(Pricing(s), c, true), v).price)
  {
    AppliesOnlyItself(w, s, es, c);
    var a := After(w, s, es);
    assert !Dirty(s, c, v);
    if LeftAlone(w, s, c, v) {
      AtRestSpared(w, s, c, v);
      AppliesSpare(w, s, es, c, v);
    } else if AtRest(a.camps[c]) && a.camps[c].status == Active && v in a.live {
      assert Pricing(a) == With(Pricing(s), c, true);
      forall d: nat | d < |a.camps| && v in w.defs[d].scope
        ensures Decided(a.camps[d], v)
      {
        if d != c {
          assert Decided(s.camps[d], v);
        }
      }
      DecidedOwesNothing(w, a, v);
      assert PriceOk(w, a, v);
    }
  }

  /** A campaign at rest has no operation running. */
  lemma AtRestSpared(w: World, s: State, c: nat, v: Variant)
    requires Inv(w, s) && c < |s.camps| && AtRest(s.camps[c])
    ensures Spared(s, c, v)
  {
    forall i | 0 <= i < |s.ops| && s.ops[i].owner == c
      ensures s.ops[i].done
    {
      assert OpOk(w, s, i);
    }
  }

  /**
   * An apply cut at any point and resumed, any number of times, leaves the very prices one
   * uninterrupted apply leaves: on every variant nobody else still has work on.
   */
  lemma CutAndResumedIsUninterrupted(w: World, s0: State, before: seq<Event>, es1: seq<Event>, es2: seq<Event>, c: nat, v: Variant)
    requires Reaches(w, s0, before)
    ensures Runs(w, s0, before)
    ensures var s := After(w, s0, before);
            Shaped(w, s) && (CanCompare(w, s, es1, es2, c, v) ==>
              Runs(w, s, es1) && Runs(w, s, es2) &&
              var a, b := After(w, s, es1), After(w, s, es2);
              && c < |a.camps| && c < |b.camps|
              && (AtRest(a.camps[c]) && a.camps[c].status == Active && AtRest(b.camps[c]) && b.camps[c].status == Active
                  && v in a.live && v in b.live
                  ==> a.live[v] == b.live[v]))
  {
    Reached(w, s0, before);
    var s := After(w, s0, before);
    if CanCompare(w, s, es1, es2, c, v) {
      CleanApplyShows(w, s, es1, c, v);
      CleanApplyShows(w, s, es2, c, v);
    }
  }

  /** Two ways of applying `c`, from a storefront where it is over and nobody has work left on `v`. */
  predicate CanCompare(w: World, s: State, es1: seq<Event>, es2: seq<Event>, c: nat, v: Variant)
    requires Shaped(w, s)
  {
    && c < |s.camps| && Applies(w, s, es1, c) && Applies(w, s, es2, c)
    && AtRest(s.camps[c]) && DecidedByAll(w, s, v) && v in s.live
  }

  /**
   * A resumed apply plans no row its predecessor verified, and plans again every outstanding one
   * that is still to be priced, unless the mirror already shows that price.
   */
  lemma ResumePlansWhatIsLeft(w: World, s0: State, es: seq<Event>, c: nat, v: Variant)
    requires Reaches(w, s0, es)
    ensures Runs(w, s0, es)
    ensures var s := After(w, s0, es);
            CanOpen(w, s, c) && s.camps[c].process.value.resume && s.camps[c].process.value.kind == Apply
            && s.camps[c].run.Some? && s.camps[c].run.value.kind == Apply && v in s.camps[c].run.value.rows ==>
              var row, p := s.camps[c].run.value.rows[v], With(Pricing(s), c, true);
              && (Settled(row.status) ==> v !in Plan(w, s, c))
              && (Outstanding(row) && Wanted(w, p, s.mirror, v) ==>
                    v in Plan(w, s, c) && Plan(w, s, c)[v].intended == Target(w, p, v).price)
  {
    Reached(w, s0, es);
    var s := After(w, s0, es);
    if CanOpen(w, s, c) && s.camps[c].run.Some? && v in s.camps[c].run.value.rows {
      assert CampOk(w, s, c);
      assert RowOk(s, s.camps[c].run.value.rows[v], v);
    }
  }
}
