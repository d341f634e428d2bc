/** What Shopify does with a bulk operation, and reading its result after the run died, keep the invariant. */
module ProtocolBulk {
  import opened Wrappers
  import opened Ledger
  import opened Protocol
  import opened ProtocolInvariant
  import opened ProtocolFrame
  import opened ProtocolEnds

  // --------------------------------------------------- settling a dead run's rows

  /** Rows marked as sent take what the result file says of them; the others stay. */
  predicate TakesResult(op: Op, reported: set<Variant>, rows: map<Variant, Row>, rows': map<Variant, Row>) {
    rows'.Keys == rows.Keys && rows.Keys == op.sent.Keys
    && forall v :: v in rows && v in op.sent ==>
         rows'[v] == if rows[v].status == Writing then SettledRow(rows[v], Outcome(op, reported, v)) else rows[v]
  }

  /** The outcome a result file gives for a row is so. */
  lemma OutcomeTrue(w: World, s: State, c: nat, reported: set<Variant>, v: Variant)
    requires Shaped(w, s) && CanSettleOp(s, c, reported) && RunOk(w, s, c)
    requires OpOk(w, s, s.camps[c].run.value.op.value)
    requires v in s.camps[c].run.value.rows && v in s.ops[s.camps[c].run.value.op.value].sent
    ensures var h := Outcome(s.ops[s.camps[c].run.value.op.value], reported, v);
            && (h.Confirmed? ==> h.observed == s.camps[c].run.value.rows[v].intended
                                 && (v in s.live ==> s.live[v] == h.observed))
            && (h.Gone? ==> v !in s.live)
  {
    var i := s.camps[c].run.value.op.value;
    assert HoldsRun(s, c, i) && HoldsLatest(s, i) && InProgress(s.camps[c]);
  }

  lemma SettleOpKeeps(w: World, s: State, c: nat, reported: set<Variant>, mirrored: bool)
    requires Inv(w, s) && CanSettleOp(s, c, reported)
    ensures Inv(w, DoSettleOp(s, c, reported, mirrored))
  {
    var s' := DoSettleOp(s, c, reported, mirrored);
    var i := s.camps[c].run.value.op.value;
    assert CampOk(w, s, c) && Busy(s, c);
    assert HoldsRun(s, c, i) && OpOk(w, s, i);
    SettleOpCamp(w, s, c, reported, mirrored);
    SettleOpTruth(w, s, c, reported, mirrored);
    SettleOpShape(w, s, s', c, reported, mirrored);
    forall j: nat | j < |s.ops| && s.ops[j].owner == c
      ensures OpOk(w, s', j)
    {
      assert OpOk(w, s, j);
      SettleOpOp(w, s, c, reported, mirrored, j);
    }
    SettleKeeps(w, s, s', c, s.camps[c].run.value.rows);
  }

  /** What the rows of a settled operation say, and that nothing is left marked as sent. */
  lemma SettleOpRows(w: World, s: State, c: nat, reported: set<Variant>)
    requires Shaped(w, s) && CanSettleOp(s, c, reported) && RunOk(w, s, c)
    requires OpOk(w, s, s.camps[c].run.value.op.value)
    ensures var rows := s.camps[c].run.value.rows;
            var op := s.ops[s.camps[c].run.value.op.value];
            var rows' := SettledRows(rows, op, reported);
            && TakesResult(op, reported, rows, rows')
            && (forall v :: v in rows' ==> rows'[v].status != Writing && rows'[v].intended == rows[v].intended)
            && (forall v :: v in rows' ==> RowOk(s, rows'[v], v))
            && RowsTrue(s, rows')
  {
    var i := s.camps[c].run.value.op.value;
    var rows := s.camps[c].run.value.rows;
    var rows' := SettledRows(rows, s.ops[i], reported);
    assert HoldsRun(s, c, i) && InProgress(s.camps[c]);
    assert TakesResult(s.ops[i], reported, rows, rows');
    forall v | v in rows'
      ensures TakesTruly(s, rows[v], rows'[v], v)
    {
      assert RowOk(s, rows[v], v);
      OutcomeTrue(w, s, c, reported, v);
      if rows[v].status == Writing {
        SettledTruly(s, rows[v], Outcome(s.ops[i], reported, v), v);
      }
    }
  }

  /** A settled row is no longer marked as sent, and says nothing false. */
  predicate TakesTruly(s: State, r: Row, r': Row, v: Variant) {
    && r'.status != Writing && r'.intended == r.intended && RowOk(s, r', v)
    && (v in s.live && Landed(r'.status) ==> s.live[v] == r'.intended)
  }

  lemma SettledTruly(s: State, r: Row, h: Heard, v: Variant)
    requires r.status == Writing && RowOk(s, r, v)
    requires h.Confirmed? ==> h.observed == r.intended && (v in s.live ==> s.live[v] == h.observed)
    requires h.Gone? ==> v !in s.live
    ensures TakesTruly(s, r, SettledRow(r, h), v)
  {
  }

  lemma SettleOpCamp(w: World, s: State, c: nat, reported: set<Variant>, mirrored: bool)
    requires Shaped(w, s) && CanSettleOp(s, c, reported) && CampOk(w, s, c)
    requires OpOk(w, s, s.camps[c].run.value.op.value)
    ensures CampOk(w, DoSettleOp(s, c, reported, mirrored), c)
    ensures !InProgress(DoSettleOp(s, c, reported, mirrored).camps[c])
  {
    var s' := DoSettleOp(s, c, reported, mirrored);
    var i := s.camps[c].run.value.op.value;
    var rows, rows' := s.camps[c].run.value.rows, s'.camps[c].run.value.rows;
    SettleOpRows(w, s, c, reported);
    NothingIsOut(s, s', c);
    SettleOpRun(w, s, c, reported, mirrored);
    SettleOpOwed(w, s, c, reported, mirrored);
  }

  /** Once every row is settled the run is over, and its operation still the one that sent them. */
  lemma NothingIsOut(s: State, s': State, c: nat)
    requires c < |s.camps| == |s'.camps| && s.camps[c].run.Some? && s.camps[c].run.value.op.Some? && !LiveRun(s.camps[c])
    requires HoldsRun(s, c, s.camps[c].run.value.op.value) && s'.ops == s.ops
    requires s'.camps[c].run.Some? && s'.camps[c].run.value == s.camps[c].run.value.(rows := s'.camps[c].run.value.rows)
    requires var rows, rows' := s.camps[c].run.value.rows, s'.camps[c].run.value.rows;
             rows'.Keys == rows.Keys && forall v :: v in rows' ==> rows'[v].status != Writing && rows'[v].intended == rows[v].intended
    ensures HoldsRun(s', c, s.camps[c].run.value.op.value) && !InProgress(s'.camps[c])
  {
  }

  lemma SettleOpRun(w: World, s: State, c: nat, reported: set<Variant>, mirrored: bool)
    requires Shaped(w, s) && CanSettleOp(s, c, reported) && RunOk(w, s, c)
    requires var rows' := DoSettleOp(s, c, reported, mirrored).camps[c].run.value.rows;
             && TakesResult(s.ops[s.camps[c].run.value.op.value], reported, s.camps[c].run.value.rows, rows')
             && (forall v :: v in rows' ==> rows'[v].intended == s.camps[c].run.value.rows[v].intended)
             && (forall v :: v in rows' ==> RowOk(s, rows'[v], v))
    requires !InProgress(DoSettleOp(s, c, reported, mirrored).camps[c])
    requires HoldsRun(DoSettleOp(s, c, reported, mirrored), c, s.camps[c].run.value.op.value)
    ensures RunOk(w, DoSettleOp(s, c, reported, mirrored), c)
  {
    var s' := DoSettleOp(s, c, reported, mirrored);
    var rows' := s'.camps[c].run.value.rows;
    forall v | v in rows'
      ensures RowOk(s', rows'[v], v)
    {
      assert RowOk(s, rows'[v], v);
    }
  }

  lemma SettleOpOwed(w: World, s: State, c: nat, reported: set<Variant>, mirrored: bool)
    requires Shaped(w, s) && CanSettleOp(s, c, reported) && OwedOk(w, s, c)
    requires TakesResult(s.ops[s.camps[c].run.value.op.value], reported, s.camps[c].run.value.rows,
                         DoSettleOp(s, c, reported, mirrored).camps[c].run.value.rows)
    ensures OwedOk(w, DoSettleOp(s, c, reported, mirrored), c)
  {
  }

  lemma SettleOpTruth(w: World, s: State, c: nat, reported: set<Variant>, mirrored: bool)
    requires Inv(w, s) && CanSettleOp(s, c, reported)
    ensures SettlesTruly(w, s, DoSettleOp(s, c, reported, mirrored), c, s.camps[c].run.value.rows)
  {
    var s' := DoSettleOp(s, c, reported, mirrored);
    var rows := s.camps[c].run.value.rows;
    forall v
      ensures v in rows && v in s.live && v in s'.mirror ==> s'.mirror[v] == s.live[v]
      ensures v !in rows ==> (v in s.mirror <==> v in s'.mirror) && (v in s.mirror ==> s'.mirror[v] == s.mirror[v])
    {
      SettleOpMirror(w, s, c, reported, mirrored, v);
    }
    forall v | v in s.camps[c].owed && v !in s'.camps[c].owed
      ensures Shows(w, s, Pricing(s), v)
    {
      SettleOpShows(w, s, c, reported, mirrored, v);
    }
  }

  lemma SettleOpShape(w: World, s: State, s': State, c: nat, reported: set<Variant>, mirrored: bool)
    requires Shaped(w, s) && CanSettleOp(s, c, reported) && RunOk(w, s, c) && OwedOk(w, s, c)
    requires s' == DoSettleOp(s, c, reported, mirrored)
    requires SettlesTruly(w, s, s', c, s.camps[c].run.value.rows)
    ensures Settles(w, s, s', c, s.camps[c].run.value.rows)
  {
    assert s'.camps == s.camps[c := s'.camps[c]];
  }

  lemma SettleOpMirror(w: World, s: State, c: nat, reported: set<Variant>, mirrored: bool, v: Variant)
    requires Inv(w, s) && CanSettleOp(s, c, reported)
    ensures var s' := DoSettleOp(s, c, reported, mirrored);
            var rows := s.camps[c].run.value.rows;
            && (v in rows && v in s.live && v in s'.mirror ==> s'.mirror[v] == s.live[v])
            && (v !in rows ==> (v in s.mirror <==> v in s'.mirror) && (v in s.mirror ==> s'.mirror[v] == s.mirror[v]))
  {
    var i := s.camps[c].run.value.op.value;
    var rows := s.camps[c].run.value.rows;
    assert CampOk(w, s, c) && HoldsRun(s, c, i) && OpOk(w, s, i) && MirrorOk(s, v);
    SettleOpRows(w, s, c, reported);
    if mirrored {
      MirroredIsTrue(s, SettledRows(rows, s.ops[i], reported), v);
    } else if v in rows {
      SettledUndirty(w, s, c, reported, v);
    }
  }

  /** A row settled as landed shows its price. */
  lemma SettleOpShows(w: World, s: State, c: nat, reported: set<Variant>, mirrored: bool, v: Variant)
    requires Inv(w, s) && CanSettleOp(s, c, reported)
    requires v in s.camps[c].owed && v !in DoSettleOp(s, c, reported, mirrored).camps[c].owed
    ensures Shows(w, s, Pricing(s), v)
  {
    var i := s.camps[c].run.value.op.value;
    assert CampOk(w, s, c) && HoldsRun(s, c, i) && OpOk(w, s, i);
    assert v in s.camps[c].run.value.rows && InProgress(s.camps[c]);
    OutcomeTrue(w, s, c, reported, v);
  }

  /** No live run holds a row of an operation waiting to be settled. */
  lemma SettledUndirty(w: World, s: State, c: nat, reported: set<Variant>, v: Variant)
    requires Inv(w, s) && CanSettleOp(s, c, reported) && v in s.camps[c].run.value.rows
    ensures forall d: nat :: d < |s.camps| ==> !Dirty(s, d, v)
  {
    assert CampOk(w, s, c) && Busy(s, c);
    forall d: nat | d < |s.camps|
      ensures !Dirty(s, d, v)
    {
      assert CampOk(w, s, d);
      if d != c && LiveRun(s.camps[d]) {
        assert Busy(s, d) && Disjoint(w, c, d);
      }
    }
  }

  lemma SettleOpOp(w: World, s: State, c: nat, reported: set<Variant>, mirrored: bool, j: nat)
    requires Shaped(w, s) && CanSettleOp(s, c, reported) && CampOk(w, s, c)
    requires j < |s.ops| && s.ops[j].owner == c && OpOk(w, s, j)
    requires !InProgress(DoSettleOp(s, c, reported, mirrored).camps[c])
    ensures OpOk(w, DoSettleOp(s, c, reported, mirrored), j)
  {
    assert s.ops[j].done;
  }

  // ------------------------------------------------------ Shopify's own progress

  /** Only operation `i`, and the price of `v` it carries, changed. */
  ghost predicate Progresses(w: World, s: State, s': State, i: nat, v: Variant) {
    && Shaped(w, s) && Shaped(w, s') && i < |s.ops| && !s.ops[i].done && i < |s'.ops|
    && s' == s.(ops := s.ops[i := s'.ops[i]], live := s'.live, accepted := s'.accepted)
    && s'.ops[i] == s.ops[i].(left := s'.ops[i].left, wrote := s'.ops[i].wrote, gone := s'.ops[i].gone,
                              done := s'.ops[i].done)
    && s'.live.Keys == s.live.Keys
    && (forall u :: u in s.live && u != v ==> s'.live[u] == s.live[u])
    && (s'.live != s.live ==> v in s.ops[i].left)
    && s'.ops[i].left <= s.ops[i].left
  }

  lemma ProgressKeeps(w: World, s: State, s': State, i: nat, v: Variant)
    requires Inv(w, s) && Progresses(w, s, s', i, v)
    requires OpOk(w, s', i) && s'.accepted <= s'.ledgered
    ensures Inv(w, s')
  {
    var c := s.ops[i].owner;
    assert OpOk(w, s, i) && CampOk(w, s, c);
    assert Busy(s, c);
    ApartWhenBusy(w, s, c);
    ProgressCamp(w, s, s', i, v);
    forall j: nat | j < |s'.ops| && s'.ops[j].owner == c
      ensures OpOk(w, s', j)
    {
      if j != i {
        assert OpOk(w, s, j);
        ProgressOther(w, s, s', i, v, j);
      }
    }
    forall u | u in w.defs[c].scope
      ensures MirrorOk(s', u) && PriceOk(w, s', u)
    {
      assert MirrorOk(s, u) && PriceOk(w, s, u);
      ProgressVariant(w, s, s', i, v, u);
    }
    ProgressLocal(w, s, s', i, v);
    Assemble(w, s, s', c);
  }

  lemma ProgressLocal(w: World, s: State, s': State, i: nat, v: Variant)
    requires Progresses(w, s, s', i, v) && OpOk(w, s, i) && OwedOk(w, s, s.ops[i].owner)
    ensures Local(w, s, s', s.ops[i].owner)
  {
  }

  /** An operation still running is the only one of its owner, whose process has heard nothing yet. */
  lemma ProgressCamp(w: World, s: State, s': State, i: nat, v: Variant)
    requires Progresses(w, s, s', i, v) && OpOk(w, s, i) && CampOk(w, s, s.ops[i].owner)
    ensures CampOk(w, s', s.ops[i].owner)
  {
    ProgressRun(w, s, s', i, v);
    ProgressProcess(w, s, s', i, v);
  }

  lemma ProgressRun(w: World, s: State, s': State, i: nat, v: Variant)
    requires Progresses(w, s, s', i, v) && OpOk(w, s, i) && RunOk(w, s, s.ops[i].owner) && OwedOk(w, s, s.ops[i].owner)
    ensures RunOk(w, s', s.ops[i].owner) && OwedOk(w, s', s.ops[i].owner)
  {
    var c := s.ops[i].owner;
    assert Pricing(s') == Pricing(s) && s'.camps == s.camps;
    assert HoldsRun(s', c, i);
    var rows := s.camps[c].run.value.rows;
    forall u | u in rows
      ensures RowOk(s', rows[u], u)
      ensures u in s.live && Landed(rows[u].status) ==> s'.live[u] == s.live[u]
    {
      assert RowOk(s, rows[u], u);
    }
  }

  lemma ProgressProcess(w: World, s: State, s': State, i: nat, v: Variant)
    requires Progresses(w, s, s', i, v) && s.ops[i].owner < |s.camps| && OpUnfinished(s, i) && ProcessOk(w, s, s.ops[i].owner)
    ensures ProcessOk(w, s', s.ops[i].owner)
  {
    var c := s.ops[i].owner;
    assert s'.camps == s.camps;
    assert OpRunning(s, c);
    if s.camps[c].process.Some? {
      assert s.camps[c].process.value.op == Some(i) && s.camps[c].process.value.heard == map[];
      assert HoldsRun(s', c, i);
      assert HearingOk(s', c);
    }
  }

  lemma ProgressOther(w: World, s: State, s': State, i: nat, v: Variant, j: nat)
    requires Progresses(w, s, s', i, v) && OpOk(w, s, i) && CampOk(w, s, s.ops[i].owner)
    requires j < |s.ops| && j != i && s.ops[j].owner == s.ops[i].owner && OpOk(w, s, j)
    ensures OpOk(w, s', j)
  {
    assert s.ops[j].done;
    assert !HoldsLatest(s, j) && !HoldsLatest(s', j);
  }

  lemma ProgressVariant(w: World, s: State, s': State, i: nat, v: Variant, u: Variant)
    requires Progresses(w, s, s', i, v) && OpOk(w, s, i) && CampOk(w, s, s.ops[i].owner)
    requires MirrorOk(s, u) && PriceOk(w, s, u)
    ensures MirrorOk(s', u) && PriceOk(w, s', u)
  {
    assert Pricing(s') == Pricing(s);
    var c := s.ops[i].owner;
    if u == v && s'.live != s.live {
      assert v in s'.camps[c].owed;
      if LiveRun(s.camps[c]) {
        assert HoldsRun(s, c, i) && Dirty(s', c, v);
      }
    } else {
      VariantKeeps(w, s, s', u);
    }
  }

  lemma OpWriteKeeps(w: World, s: State, i: nat, v: Variant)
    requires Inv(w, s) && CanOpWrite(s, i, v)
    ensures Inv(w, DoOpWrite(s, i, v))
  {
    var s' := DoOpWrite(s, i, v);
    assert OpOk(w, s, i);
    OpStays(w, s, s', i, v);
    ProgressKeeps(w, s, s', i, v);
  }

  lemma OpRefuseKeeps(w: World, s: State, i: nat, v: Variant)
    requires Inv(w, s) && CanOpWrite(s, i, v)
    ensures Inv(w, s.(ops := s.ops[i := s.ops[i].(left := s.ops[i].left - {v})]))
  {
    var s' := s.(ops := s.ops[i := s.ops[i].(left := s.ops[i].left - {v})]);
    assert OpOk(w, s, i);
    OpStays(w, s, s', i, v);
    ProgressKeeps(w, s, s', i, v);
  }

  lemma OpEndKeeps(w: World, s: State, i: nat)
    requires Inv(w, s) && i < |s.ops| && !s.ops[i].done
    ensures Inv(w, s.(ops := s.ops[i := s.ops[i].(done := true)]))
  {
    var s' := s.(ops := s.ops[i := s.ops[i].(done := true)]);
    assert OpOk(w, s, i);
    assert HoldsLatest(s', i) == HoldsLatest(s, i);
    ProgressKeeps(w, s, s', i, 0);
  }

  lemma OpStays(w: World, s: State, s': State, i: nat, v: Variant)
    requires Progresses(w, s, s', i, v) && OpOk(w, s, i) && v in s.ops[i].left
    requires s'.ops[i].left == s.ops[i].left - {v} && !s'.ops[i].done
    requires s'.ops[i].wrote == s.ops[i].wrote
             || (s'.ops[i].wrote == s.ops[i].wrote + {v} && v in s'.live && s'.live[v] == s.ops[i].sent[v])
    requires s'.ops[i].gone == s.ops[i].gone || (s'.ops[i].gone == s.ops[i].gone + {v} && v !in s'.live)
    requires s'.ops[i].wrote == s.ops[i].wrote || s'.ops[i].gone == s.ops[i].gone
    ensures OpOk(w, s', i)
  {
    assert HoldsLatest(s', i) == HoldsLatest(s, i);
    assert HoldsRun(s', s.ops[i].owner, i);
    forall j | 0 <= j < |s'.ops| && j != i && !s'.ops[j].done
      ensures s'.ops[j].owner != s'.ops[i].owner
    {
      assert s'.ops[j] == s.ops[j];
    }
  }
}
