/** Settling the mirror, giving up a claim, stopping and reclaiming keep the invariant. */
module ProtocolEnds {
  import opened Wrappers
  import opened Ledger
  import opened Protocol
  import opened ProtocolInvariant
  import opened ProtocolFrame

  // -------------------------------------------------------- settling the mirror

  /** Every row the ledger calls landed is live at its price, and every skipped one is gone. */
  predicate RowsTrue(s: State, rows: map<Variant, Row>) {
    forall v :: v in rows && v in s.live ==>
      && (Landed(rows[v].status) ==> s.live[v] == rows[v].intended)
      && rows[v].status != Skipped && rows[v].status != Reverted
  }

  /** What settling makes of the mirror: no falsehood on the rows, and nothing else touched. */
  lemma MirroredIsTrue(s: State, rows: map<Variant, Row>, v: Variant)
    requires RowsTrue(s, rows)
    ensures v in rows && v in s.live && v in Mirrored(s.mirror, rows) ==> Mirrored(s.mirror, rows)[v] == s.live[v]
    ensures v in rows && Unknown(rows[v].status) ==> v !in Mirrored(s.mirror, rows)
    ensures v in rows && Landed(rows[v].status) ==> v in Mirrored(s.mirror, rows)
    ensures v !in rows ==> (v in s.mirror <==> v in Mirrored(s.mirror, rows))
                           && (v in s.mirror ==> Mirrored(s.mirror, rows)[v] == s.mirror[v])
  {
  }

  lemma RunRowsTrue(w: World, s: State, c: nat)
    requires Shaped(w, s) && c < |s.camps| && RunOk(w, s, c) && s.camps[c].run.Some? && InProgress(s.camps[c])
    ensures RowsTrue(s, s.camps[c].run.value.rows)
  {
    var rows := s.camps[c].run.value.rows;
    forall v | v in rows && v in s.live
      ensures rows[v].status != Skipped && rows[v].status != Reverted
    {
      assert RowOk(s, rows[v], v);
    }
  }

  /** Settling tells the mirror no falsehood, and gives up only variants that show their price. */
  ghost predicate SettlesTruly(w: World, s: State, s': State, c: nat, rows: map<Variant, Row>)
    requires c < |s.camps| && c < |s'.camps|
  {
    && (forall v :: v in rows && v in s.live && v in s'.mirror ==> s'.mirror[v] == s.live[v])
    && (forall v :: v !in rows ==> (v in s.mirror <==> v in s'.mirror) && (v in s.mirror ==> s'.mirror[v] == s.mirror[v]))
    && (forall v :: v in s.camps[c].owed && v !in s'.camps[c].owed ==> Shows(w, s, Pricing(s), v))
  }

  /** Only `c`'s own campaign and the mirror at its rows changed, and the mirror is true there. */
  ghost predicate Settles(w: World, s: State, s': State, c: nat, rows: map<Variant, Row>) {
    && Shaped(w, s) && Shaped(w, s') && c < |s.camps|
    && s' == s.(camps := s.camps[c := s'.camps[c]], mirror := s'.mirror)
    && Prices(s'.camps[c]) == Prices(s.camps[c])
    && rows.Keys <= w.defs[c].scope
    && s'.camps[c].owed <= w.defs[c].scope && s.camps[c].owed <= w.defs[c].scope
    && SettlesTruly(w, s, s', c, rows)
    && (forall v :: Dirty(s, c, v) ==> v in rows)
  }

  lemma SettleKeeps(w: World, s: State, s': State, c: nat, rows: map<Variant, Row>)
    requires Inv(w, s) && Settles(w, s, s', c, rows) && Busy(s, c)
    requires CampOk(w, s', c)
    requires forall i: nat :: i < |s.ops| && s.ops[i].owner == c ==> OpOk(w, s', i)
    ensures Inv(w, s')
  {
    ApartWhenBusy(w, s, c);
    forall v | v in w.defs[c].scope
      ensures MirrorOk(s', v) && PriceOk(w, s', v)
    {
      assert MirrorOk(s, v) && PriceOk(w, s, v);
      SettleVariant(w, s, s', c, rows, v);
    }
    SettleLocal(w, s, s', c, rows);
    Assemble(w, s, s', c);
  }

  lemma SettleLocal(w: World, s: State, s': State, c: nat, rows: map<Variant, Row>)
    requires Settles(w, s, s', c, rows)
    ensures Local(w, s, s', c)
  {
  }

  lemma SettleVariant(w: World, s: State, s': State, c: nat, rows: map<Variant, Row>, v: Variant)
    requires Settles(w, s, s', c, rows) && MirrorOk(s, v) && PriceOk(w, s, v)
    ensures MirrorOk(s', v) && PriceOk(w, s', v)
  {
    assert Pricing(s') == Pricing(s);
    if v !in rows && forall d: nat :: d < |s.camps| ==> !Dirty(s', d, v) {
      forall d: nat | d < |s.camps|
        ensures !Dirty(s, d, v)
      {
        assert !Dirty(s', d, v);
      }
    }
    if forall d: nat :: d < |s.camps| ==> v !in s'.camps[d].owed {
      if v !in s.camps[c].owed {
        forall d: nat | d < |s.camps|
          ensures v !in s.camps[d].owed
        {
          assert v !in s'.camps[d].owed;
        }
      }
    }
  }

  lemma SettleMirrorKeeps(w: World, s: State, c: nat)
    requires Inv(w, s) && CanSettleMirror(s, c)
    ensures Inv(w, DoSettleMirror(s, c))
  {
    var s' := DoSettleMirror(s, c);
    assert CampOk(w, s, c);
    SettleMirrorSettles(w, s, c);
    NoneRunning(w, s, c);
    SettleMirrorCamp(w, s, c);
    forall j: nat | j < |s.ops| && s.ops[j].owner == c
      ensures OpOk(w, s', j)
    {
      assert OpOk(w, s, j);
      SettleMirrorOp(w, s, c, j);
    }
    SettleKeeps(w, s, s', c, s.camps[c].run.value.rows);
  }

  lemma SettleMirrorSettles(w: World, s: State, c: nat)
    requires Shaped(w, s) && CanSettleMirror(s, c) && RunOk(w, s, c) && OwedOk(w, s, c)
    ensures Settles(w, s, DoSettleMirror(s, c), c, s.camps[c].run.value.rows)
    ensures RowsMirrored(DoSettleMirror(s, c), c)
  {
    RunRowsTrue(w, s, c);
    AllMirrored(s, s.camps[c].run.value.rows);
    MirrorLocal(w, s, c);
  }

  lemma MirrorLocal(w: World, s: State, c: nat)
    requires Shaped(w, s) && CanSettleMirror(s, c)
    ensures var s' := DoSettleMirror(s, c);
            && s' == s.(camps := s.camps[c := s'.camps[c]], mirror := Mirrored(s.mirror, s.camps[c].run.value.rows))
            && s'.camps[c] == s.camps[c].(process := s'.camps[c].process)
  {
  }

  lemma AllMirrored(s: State, rows: map<Variant, Row>)
    requires RowsTrue(s, rows)
    ensures var mirror := Mirrored(s.mirror, rows);
            && (forall v :: v in rows && v in s.live && v in mirror ==> mirror[v] == s.live[v])
            && (forall v :: v !in rows ==> (v in s.mirror <==> v in mirror) && (v in s.mirror ==> mirror[v] == s.mirror[v]))
  {
    forall v
      ensures v in rows && v in s.live && v in Mirrored(s.mirror, rows) ==> Mirrored(s.mirror, rows)[v] == s.live[v]
      ensures v !in rows ==> (v in s.mirror <==> v in Mirrored(s.mirror, rows))
                             && (v in s.mirror ==> Mirrored(s.mirror, rows)[v] == s.mirror[v])
    {
      MirroredIsTrue(s, rows, v);
    }
  }

  /** By the time the mirror is settled, a bulk operation of this run is over. */
  lemma NoneRunning(w: World, s: State, c: nat)
    requires Inv(w, s) && CanSettleMirror(s, c)
    ensures !OpRunning(s, c)
  {
    assert CampOk(w, s, c);
    forall i: nat | i < |s.ops| && s.ops[i].owner == c
      ensures s.ops[i].done
    {
      assert OpOk(w, s, i);
      DoneByNow(w, s, c, i);
    }
  }

  lemma DoneByNow(w: World, s: State, c: nat, i: nat)
    requires Shaped(w, s) && CanSettleMirror(s, c) && CampOk(w, s, c)
    requires i < |s.ops| && s.ops[i].owner == c && OpOk(w, s, i)
    ensures s.ops[i].done
  {
    assert s.ops[i].sent.Keys != {};
  }

  lemma SettleMirrorCamp(w: World, s: State, c: nat)
    requires Shaped(w, s) && CanSettleMirror(s, c) && CampOk(w, s, c) && !OpRunning(s, c)
    requires RowsMirrored(DoSettleMirror(s, c), c)
    ensures CampOk(w, DoSettleMirror(s, c), c)
  {
    var s' := DoSettleMirror(s, c);
    var k := s.camps[c];
    assert Pricing(s') == Pricing(s);
    assert !OpRunning(s', c);
    SettleMirrorRun(w, s, c);
    if k.process.value.op.Some? {
      assert HoldsRun(s', c, k.process.value.op.value);
    }
    assert HearingOk(s, c) && HearingOk(s', c);
    assert !Sent(s'.camps[c]);
  }

  lemma SettleMirrorRun(w: World, s: State, c: nat)
    requires Shaped(w, s) && CanSettleMirror(s, c) && RunOk(w, s, c) && OwedOk(w, s, c)
    ensures RunOk(w, DoSettleMirror(s, c), c) && OwedOk(w, DoSettleMirror(s, c), c)
  {
    var s' := DoSettleMirror(s, c);
    var k := s.camps[c];
    assert Pricing(s') == Pricing(s);
    forall v | v in k.run.value.rows
      ensures RowOk(s', k.run.value.rows[v], v)
    {
      assert RowOk(s, k.run.value.rows[v], v);
    }
    if k.run.value.op.Some? {
      assert HoldsRun(s', c, k.run.value.op.value);
    }
  }

  lemma SettleMirrorOp(w: World, s: State, c: nat, j: nat)
    requires Shaped(w, s) && CanSettleMirror(s, c) && !OpRunning(s, c)
    requires j < |s.ops| && s.ops[j].owner == c && OpOk(w, s, j) && CampOk(w, s, c)
    ensures OpOk(w, DoSettleMirror(s, c), j)
  {
    assert s.ops[j].done;
    assert InProgress(s.camps[c]);
    assert HoldsLatest(DoSettleMirror(s, c), j) ==> HoldsLatest(s, j);
  }

  // ------------------------------------------------------ stopped and reclaimed

  predicate Reclaims(run: Run, run': Run) {
    && run' == run.(status := RunPartial, rows := run'.rows)
    && run'.rows.Keys == run.rows.Keys
    && forall v :: v in run.rows ==>
         run'.rows[v] == if run.rows[v].status == Writing && run.op.None? then run.rows[v].(status := Pending) else run.rows[v]
  }

  lemma StopKeeps(w: World, s: State, c: nat)
    requires Inv(w, s) && CanStop(s, c)
    ensures Inv(w, DoStop(s, c))
  {
    var s' := DoStop(s, c);
    assert CampOk(w, s, c);
    StopSettles(w, s, c);
    StopCamp(w, s, c);
    forall j: nat | j < |s.ops| && s.ops[j].owner == c
      ensures OpOk(w, s', j)
    {
      assert OpOk(w, s, j);
      StopOp(w, s, c, j);
    }
    SettleKeeps(w, s, s', c, Reclaimed(s.camps[c].run.value).rows);
  }

  lemma StopSettles(w: World, s: State, c: nat)
    requires Shaped(w, s) && CanStop(s, c) && RunOk(w, s, c) && OwedOk(w, s, c)
    ensures Reclaims(s.camps[c].run.value, Reclaimed(s.camps[c].run.value))
    ensures RowsTrue(s, Reclaimed(s.camps[c].run.value).rows)
    ensures Settles(w, s, DoStop(s, c), c, Reclaimed(s.camps[c].run.value).rows)
  {
    ReclaimedTrue(w, s, c);
    StopSettlesTruly(w, s, c);
  }

  lemma StopSettlesTruly(w: World, s: State, c: nat)
    requires CanStop(s, c) && RowsTrue(s, Reclaimed(s.camps[c].run.value).rows)
    ensures SettlesTruly(w, s, DoStop(s, c), c, Reclaimed(s.camps[c].run.value).rows)
  {
    var rows := Reclaimed(s.camps[c].run.value).rows;
    forall v
      ensures v in rows && v in s.live && v in Mirrored(s.mirror, rows) ==> Mirrored(s.mirror, rows)[v] == s.live[v]
      ensures v !in rows ==> (v in s.mirror <==> v in Mirrored(s.mirror, rows))
                             && (v in s.mirror ==> Mirrored(s.mirror, rows)[v] == s.mirror[v])
    {
      MirroredIsTrue(s, rows, v);
    }
  }

  lemma ReclaimedTrue(w: World, s: State, c: nat)
    requires Shaped(w, s) && CanStop(s, c) && RunOk(w, s, c)
    ensures Reclaims(s.camps[c].run.value, Reclaimed(s.camps[c].run.value))
    ensures RowsTrue(s, Reclaimed(s.camps[c].run.value).rows)
  {
    RunRowsTrue(w, s, c);
  }

  lemma StopCamp(w: World, s: State, c: nat)
    requires Shaped(w, s) && CanStop(s, c) && RunOk(w, s, c) && OwedOk(w, s, c)
    requires Reclaims(s.camps[c].run.value, Reclaimed(s.camps[c].run.value))
    ensures CampOk(w, DoStop(s, c), c)
  {
    var s' := DoStop(s, c);
    var k := s.camps[c];
    var rows, rows' := k.run.value.rows, s'.camps[c].run.value.rows;
    assert Pricing(s') == Pricing(s);
    assert InProgress(k) && !LiveRun(s'.camps[c]);
    forall v | v in rows'
      ensures v in rows && rows'[v].intended == rows[v].intended && RowOk(s', rows'[v], v)
      ensures Settled(rows'[v].status) == Settled(rows[v].status) && Landed(rows'[v].status) == Landed(rows[v].status)
    {
      assert RowOk(s, rows[v], v);
    }
    if k.run.value.op.Some? {
      assert HoldsRun(s, c, k.run.value.op.value) && HoldsRun(s', c, k.run.value.op.value);
    }
  }

  lemma StopOp(w: World, s: State, c: nat, j: nat)
    requires Shaped(w, s) && CanStop(s, c) && CampOk(w, s, c)
    requires Reclaims(s.camps[c].run.value, Reclaimed(s.camps[c].run.value))
    requires RowsTrue(s, Reclaimed(s.camps[c].run.value).rows)
    requires j < |s.ops| && s.ops[j].owner == c && OpOk(w, s, j)
    ensures OpOk(w, DoStop(s, c), j)
  {
    assert InProgress(s.camps[c]);
    assert HoldsLatest(DoStop(s, c), j) ==> HoldsLatest(s, j);
    if !s.ops[j].done {
      StopUnfinished(s, c, j);
    }
  }

  /** Rows of an operation still running stay outstanding, and the settled mirror does not know them. */
  lemma StopUnfinished(s: State, c: nat, j: nat)
    requires CanStop(s, c) && j < |s.ops| && s.ops[j].owner == c && !s.ops[j].done && OpUnfinished(s, j)
    requires s.ops[j].left <= s.ops[j].sent.Keys
    requires Reclaims(s.camps[c].run.value, Reclaimed(s.camps[c].run.value))
    requires RowsTrue(s, Reclaimed(s.camps[c].run.value).rows)
    ensures OpUnfinished(DoStop(s, c), j)
  {
    var s' := DoStop(s, c);
    var rows, rows' := s.camps[c].run.value.rows, s'.camps[c].run.value.rows;
    assert HoldsRun(s', c, j);
    forall v | v in s.ops[j].left
      ensures v in s'.camps[c].owed && v in rows' && Outstanding(rows'[v]) && v !in s'.mirror
    {
      assert v in rows && Outstanding(rows[v]);
      MirroredIsTrue(s, rows', v);
    }
  }

  // -------------------------------------------------------------- giving it up

  lemma ReleaseKeeps(w: World, s: State, c: nat)
    requires Inv(w, s) && CanRelease(w, s, c)
    ensures Inv(w, DoRelease(w, s, c))
  {
    var s' := DoRelease(w, s, c);
    assert CampOk(w, s, c);
    ApartWhenBusy(w, s, c);
    ReleaseCamp(w, s, c);
    forall j: nat | j < |s.ops| && s.ops[j].owner == c
      ensures OpOk(w, s', j)
    {
      assert OpOk(w, s, j);
      ReleaseOp(w, s, c, j);
    }
    forall v | v in w.defs[c].scope
      ensures MirrorOk(s', v) && PriceOk(w, s', v)
    {
      assert MirrorOk(s, v) && PriceOk(w, s, v);
      ReleaseVariant(w, s, c, v);
    }
    Assemble(w, s, s', c);
  }

  lemma ReleaseCamp(w: World, s: State, c: nat)
    requires CanRelease(w, s, c) && CampOk(w, s, c)
    ensures CampOk(w, DoRelease(w, s, c), c)
  {
    var s' := DoRelease(w, s, c);
    var k := s.camps[c];
    assert !InProgress(s'.camps[c]);
    if k.run.Some? {
      forall v | v in k.run.value.rows
        ensures RowOk(s', k.run.value.rows[v], v)
      {
        assert RowOk(s, k.run.value.rows[v], v);
      }
      if k.run.value.op.Some? {
        assert HoldsRun(s', c, k.run.value.op.value);
      }
    }
  }

  lemma ReleaseOp(w: World, s: State, c: nat, j: nat)
    requires CanRelease(w, s, c) && CampOk(w, s, c)
    requires j < |s.ops| && s.ops[j].owner == c && OpOk(w, s, j)
    ensures OpOk(w, DoRelease(w, s, c), j)
  {
    assert !OpRunning(s, c);
    assert s.ops[j].done;
    assert !InProgress(DoRelease(w, s, c).camps[c]);
  }

  lemma ReleaseVariant(w: World, s: State, c: nat, v: Variant)
    requires CanRelease(w, s, c) && CampOk(w, s, c) && v in w.defs[c].scope && MirrorOk(s, v) && PriceOk(w, s, v)
    ensures MirrorOk(DoRelease(w, s, c), v) && PriceOk(w, DoRelease(w, s, c), v)
  {
    var s' := DoRelease(w, s, c);
    var b := s.camps[c].process.value.before;
    if forall d: nat :: d < |s.camps| ==> !Dirty(s', d, v) {
      if !Dirty(s, c, v) {
        forall d: nat | d < |s.camps|
          ensures !Dirty(s, d, v)
        {
          assert !Dirty(s', d, v);
        }
      } else {
        assert RowsMirrored(s, c);
      }
    }
    if forall d: nat :: d < |s.camps| ==> v !in s'.camps[d].owed {
      assert v !in s'.camps[c].owed;
      assert NoOneElseOwes(s, c, v) by {
        forall d: nat | d < |s.camps| && d != c
          ensures v !in s.camps[d].owed
        {
          assert v !in s'.camps[d].owed;
        }
      }
      if At(s.camps[c], Opened) && Prices(s'.camps[c]) == Prices(s.camps[c]) {
        assert Pricing(s') == Pricing(s);
      } else {
        assert Prices(s'.camps[c]) == b.prices;
        assert Pricing(s') == With(Pricing(s), c, b.prices);
        assert Undone(w, s, c);
      }
    }
  }

  lemma LoseCloseKeeps(w: World, s: State, c: nat)
    requires Inv(w, s) && CanClose(s, c)
    ensures Inv(w, DoLoseClose(w, s, c))
  {
    var s' := DoLoseClose(w, s, c);
    assert CampOk(w, s, c);
    ApartWhenBusy(w, s, c);
    LoseCloseCamp(w, s, c);
    forall j: nat | j < |s.ops| && s.ops[j].owner == c
      ensures OpOk(w, s', j)
    {
      assert OpOk(w, s, j);
      assert !OpRunning(s, c);
      assert s.ops[j].done;
    }
    forall v | v in w.defs[c].scope
      ensures MirrorOk(s', v) && PriceOk(w, s', v)
    {
      assert MirrorOk(s, v) && PriceOk(w, s, v);
      if Prices(s'.camps[c]) == Prices(s.camps[c]) {
        assert Pricing(s') == Pricing(s);
        VariantKeeps(w, s, s', v);
      } else {
        assert v in s'.camps[c].owed;
        LoseCloseMirror(w, s, c, v);
      }
    }
    Assemble(w, s, s', c);
  }

  lemma LoseCloseMirror(w: World, s: State, c: nat, v: Variant)
    requires Shaped(w, s) && CanClose(s, c) && MirrorOk(s, v)
    ensures MirrorOk(DoLoseClose(w, s, c), v)
  {
    var s' := DoLoseClose(w, s, c);
    if forall d: nat :: d < |s.camps| ==> !Dirty(s', d, v) {
      forall d: nat | d < |s.camps|
        ensures !Dirty(s, d, v)
      {
        assert !Dirty(s', d, v);
      }
    }
  }

  lemma LoseCloseCamp(w: World, s: State, c: nat)
    requires Shaped(w, s) && CanClose(s, c) && CampOk(w, s, c)
    ensures CampOk(w, DoLoseClose(w, s, c), c)
  {
    var s' := DoLoseClose(w, s, c);
    var k := s.camps[c];
    assert !InProgress(s'.camps[c]);
    forall v | v in k.run.value.rows
      ensures RowOk(s', k.run.value.rows[v], v)
    {
      assert RowOk(s, k.run.value.rows[v], v);
    }
    if k.run.value.op.Some? {
      assert HoldsRun(s', c, k.run.value.op.value);
    }
  }
}
