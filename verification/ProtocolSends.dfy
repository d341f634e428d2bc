/** Sending, reading back and recording keep the invariant. */
module ProtocolSends {
  import opened Wrappers
  import opened Ledger
  import opened Protocol
  import opened ProtocolInvariant
  import opened ProtocolFrame

  /** The step changes only what campaign `c`'s process remembers and the price of `v`, which it holds. */
  ghost predicate Touches(w: World, s: State, s': State, c: nat, v: Variant) {
    && Shaped(w, s) && Shaped(w, s') && c < |s.camps| && LiveRun(s.camps[c]) && s.camps[c].process.Some?
    && v in s.camps[c].run.value.rows
    && s'.camps == s.camps[c := s'.camps[c]]
    && s'.camps[c].process.Some?
    && s'.camps[c] == s.camps[c].(process := s'.camps[c].process)
    && s'.ops == s.ops && s'.mirror == s.mirror && s'.ledgered == s.ledgered
    && s'.live.Keys == s.live.Keys
    && (forall u :: u in s.live && u != v ==> s'.live[u] == s.live[u])
    && s'.accepted <= s'.ledgered
  }

  lemma TouchRun(w: World, s: State, s': State, c: nat, v: Variant)
    requires Touches(w, s, s', c, v) && Harmless(s, s', c, v)
    requires RunOk(w, s, c) && OwedOk(w, s, c)
    ensures RunOk(w, s', c) && OwedOk(w, s', c)
  {
    assert Pricing(s') == Pricing(s);
    var run := s.camps[c].run;
    if run.value.op.Some? {
      assert HoldsRun(s', c, run.value.op.value);
    }
  }

  /** A price moves only for a row not yet settled, of a run that has no bulk operation. */
  predicate Harmless(s: State, s': State, c: nat, v: Variant)
    requires c < |s.camps| && LiveRun(s.camps[c]) && s.camps[c].process.Some? && v in s.camps[c].run.value.rows
    requires c < |s'.camps| && s'.camps[c].process.Some?
  {
    && s'.camps[c].process.value.op == s.camps[c].process.value.op
    && (s'.live == s.live ||
        (s.camps[c].run.value.rows[v].status == Pending && s.camps[c].run.value.op.None?
         && s.camps[c].process.value.op.None?))
  }

  lemma TouchKeeps(w: World, s: State, s': State, c: nat, v: Variant)
    requires Inv(w, s) && Touches(w, s, s', c, v) && Harmless(s, s', c, v)
    requires ProcessOk(w, s', c)
    ensures Inv(w, s')
  {
    assert CampOk(w, s, c);
    ApartWhenBusy(w, s, c);
    TouchRun(w, s, s', c, v);
    forall i: nat | i < |s'.ops| && s'.ops[i].owner == c
      ensures OpOk(w, s', i)
    {
      assert OpOk(w, s, i);
      TouchOp(w, s, s', c, v, i);
    }
    forall u | u in w.defs[c].scope
      ensures MirrorOk(s', u) && PriceOk(w, s', u)
    {
      assert MirrorOk(s, u) && PriceOk(w, s, u);
      TouchVariant(w, s, s', c, v, u);
    }
    TouchLocal(w, s, s', c, v);
    Assemble(w, s, s', c);
  }

  lemma TouchLocal(w: World, s: State, s': State, c: nat, v: Variant)
    requires Touches(w, s, s', c, v) && RunOk(w, s, c) && OwedOk(w, s, c)
    ensures Local(w, s, s', c)
  {
  }

  lemma TouchVariant(w: World, s: State, s': State, c: nat, v: Variant, u: Variant)
    requires Touches(w, s, s', c, v) && Harmless(s, s', c, v) && RunOk(w, s, c) && OwedOk(w, s, c)
    requires MirrorOk(s, u) && PriceOk(w, s, u)
    ensures MirrorOk(s', u) && PriceOk(w, s', u)
  {
    assert Pricing(s') == Pricing(s);
    if u == v && s'.live != s.live {
      assert Dirty(s', c, v) && v in s'.camps[c].owed;
    } else {
      VariantKeeps(w, s, s', u);
    }
  }

  lemma TouchOp(w: World, s: State, s': State, c: nat, v: Variant, i: nat)
    requires Touches(w, s, s', c, v) && Harmless(s, s', c, v)
    requires RunOk(w, s, c) && ProcessOk(w, s, c) && ProcessOk(w, s', c)
    requires i < |s'.ops| && s'.ops[i].owner == c && OpOk(w, s, i)
    ensures OpOk(w, s', i)
  {
    assert HoldsLatest(s', i) <==> HoldsLatest(s, i);
    if !s.ops[i].done {
      TouchUnfinished(w, s, s', c, v, i);
    }
    if HoldsLatest(s, i) {
      assert s'.live == s.live;
    }
  }

  lemma TouchUnfinished(w: World, s: State, s': State, c: nat, v: Variant, i: nat)
    requires Touches(w, s, s', c, v) && s'.camps[c].process.value.op == s.camps[c].process.value.op
    requires i < |s.ops| && s.ops[i].owner == c && OpUnfinished(s, i)
    ensures OpUnfinished(s', i)
  {
    assert HoldsRun(s', c, i);
  }

  /** What the process heard of one more row is so. */
  lemma HearKeeps(w: World, s: State, s': State, c: nat, v: Variant, h: Heard)
    requires Inv(w, s) && Touches(w, s, s', c, v) && Harmless(s, s', c, v)
    requires (At(s.camps[c], Opened) || At(s.camps[c], Sending)) && s.camps[c].process.value.op.None?
    requires s'.camps[c] == Hears(s.camps[c], v, h)
    requires Waiting(s.camps[c].run.value.rows[v].status)
    requires v in s.camps[c].process.value.heard ==> s.camps[c].process.value.heard[v] == Wrote
    requires h.Confirmed? ==> h.observed == s.camps[c].run.value.rows[v].intended
                              && (v in s'.live ==> s'.live[v] == h.observed)
    requires h.Gone? ==> v !in s'.live
    ensures Inv(w, s')
  {
    assert CampOk(w, s, c);
    HearsSo(w, s, s', c, v, h);
    TouchKeeps(w, s, s', c, v);
  }

  lemma HearsSo(w: World, s: State, s': State, c: nat, v: Variant, h: Heard)
    requires Touches(w, s, s', c, v) && ProcessOk(w, s, c)
    requires (At(s.camps[c], Opened) || At(s.camps[c], Sending)) && s.camps[c].process.value.op.None?
    requires s'.camps[c] == Hears(s.camps[c], v, h)
    requires Waiting(s.camps[c].run.value.rows[v].status)
    requires h.Confirmed? ==> h.observed == s.camps[c].run.value.rows[v].intended
                              && (v in s'.live ==> s'.live[v] == h.observed)
    requires h.Gone? ==> v !in s'.live
    ensures ProcessOk(w, s', c)
  {
    assert OpRunning(s', c) == OpRunning(s, c);
    assert HearingOk(s', c) by {
      assert HearingOk(s, c);
    }
  }

  /** A row sent one by one is still pending in the ledger until its result is recorded. */
  lemma StillPending(w: World, s: State, c: nat, v: Variant)
    requires Inv(w, s) && c < |s.camps| && (At(s.camps[c], Opened) || At(s.camps[c], Sending)) && LiveRun(s.camps[c])
    requires v in s.camps[c].run.value.rows && s.camps[c].process.value.op.None?
    requires v !in s.camps[c].process.value.heard || s.camps[c].process.value.heard[v] == Wrote
    ensures v !in s.camps[c].process.value.heard ==> s.camps[c].run.value.rows[v].status == Pending
    ensures s.camps[c].run.value.op.None?
    ensures Waiting(s.camps[c].run.value.rows[v].status)
    ensures Entry(c, s.camps[c].run.value.no, v, s.camps[c].run.value.rows[v].intended) in s.ledgered
    ensures s.accepted <= s.ledgered
  {
    assert CampOk(w, s, c);
  }

  lemma WriteKeeps(w: World, s: State, c: nat, v: Variant)
    requires Inv(w, s) && CanSend(s, c, v)
    ensures Inv(w, DoWrite(s, c, v))
  {
    StillPending(w, s, c, v);
    HearKeeps(w, s, DoWrite(s, c, v), c, v, if v in s.live then Wrote else Gone);
  }

  lemma RefuseKeeps(w: World, s: State, c: nat, v: Variant, landed: bool)
    requires Inv(w, s) && CanSend(s, c, v)
    ensures Inv(w, DoRefuse(s, c, v, landed))
  {
    StillPending(w, s, c, v);
    HearKeeps(w, s, DoRefuse(s, c, v, landed), c, v, Rejected);
  }

  lemma ReadBackKeeps(w: World, s: State, c: nat, v: Variant)
    requires Inv(w, s) && CanReadBack(s, c, v)
    ensures Inv(w, DoReadBack(s, c, v))
  {
    StillPending(w, s, c, v);
    HearKeeps(w, s, DoReadBack(s, c, v), c, v, DoReadBack(s, c, v).camps[c].process.value.heard[v]);
  }
}
