/** Bulk submission, recording and the end of a run keep the invariant. */
module ProtocolRecords {
  import opened Wrappers
  import opened Ledger
  import opened Protocol
  import opened ProtocolInvariant
  import opened ProtocolFrame

  // ------------------------------------------------------- recording, closing

  /** Sent rows: as they were, with pending ones marked as sent. */
  predicate MarkedSent(rows: map<Variant, Row>, rows': map<Variant, Row>) {
    rows'.Keys == rows.Keys
    && forall v :: v in rows ==> rows'[v] == if rows[v].status == Pending then rows[v].(status := Writing) else rows[v]
  }

  lemma NoteSubmittedRun(w: World, s: State, s': State, c: nat)
    requires Shaped(w, s) && CanNote(s, c) && RunOk(w, s, c) && OwedOk(w, s, c)
    requires s' == DoNoteSubmitted(s, c) && HoldsRun(s', c, s.camps[c].process.value.op.value)
    requires MarkedSent(s.camps[c].run.value.rows, s'.camps[c].run.value.rows)
    ensures RunOk(w, s', c)
  {
    assert Pricing(s') == Pricing(s);
    var rows, rows' := s.camps[c].run.value.rows, s'.camps[c].run.value.rows;
    assert InProgress(s.camps[c]) && LiveRun(s'.camps[c]);
    MarkedRowsOk(s, s', rows, rows');
  }

  lemma MarkedRowsOk(s: State, s': State, rows: map<Variant, Row>, rows': map<Variant, Row>)
    requires MarkedSent(rows, rows') && s'.live == s.live && forall v :: v in rows ==> RowOk(s, rows[v], v)
    ensures forall v :: v in rows' ==> v in rows && rows'[v].intended == rows[v].intended && RowOk(s', rows'[v], v)
    ensures forall v :: v in rows' && Landed(rows'[v].status) ==> rows'[v] == rows[v]
  {
    forall v | v in rows'
      ensures RowOk(s', rows'[v], v)
    {
      assert RowOk(s, rows[v], v);
    }
  }

  lemma NoteSubmittedOwed(w: World, s: State, s': State, c: nat)
    requires Shaped(w, s) && CanNote(s, c) && OwedOk(w, s, c)
    requires s' == DoNoteSubmitted(s, c)
    requires MarkedSent(s.camps[c].run.value.rows, s'.camps[c].run.value.rows)
    ensures OwedOk(w, s', c)
  {
  }

  lemma NoteSubmittedProcess(w: World, s: State, s': State, c: nat)
    requires Shaped(w, s) && CanNote(s, c) && ProcessOk(w, s, c)
    requires s' == DoNoteSubmitted(s, c) && HoldsRun(s', c, s.camps[c].process.value.op.value)
    requires MarkedSent(s.camps[c].run.value.rows, s'.camps[c].run.value.rows)
    ensures ProcessOk(w, s', c)
  {
    assert OpRunning(s', c) == OpRunning(s, c);
    NotedHears(s, s', c);
  }

  lemma NotedHears(s: State, s': State, c: nat)
    requires CanNote(s, c) && s' == DoNoteSubmitted(s, c) && HearingOk(s, c)
    requires HoldsRun(s', c, s.camps[c].process.value.op.value)
    requires MarkedSent(s.camps[c].run.value.rows, s'.camps[c].run.value.rows)
    ensures HearingOk(s', c)
  {
  }

  lemma NoteSubmittedCamp(w: World, s: State, c: nat)
    requires Shaped(w, s) && CanNote(s, c) && CampOk(w, s, c)
    ensures CampOk(w, DoNoteSubmitted(s, c), c)
  {
    var s' := DoNoteSubmitted(s, c);
    assert MarkedSent(s.camps[c].run.value.rows, s'.camps[c].run.value.rows);
    assert HoldsRun(s', c, s.camps[c].process.value.op.value);
    NoteSubmittedRun(w, s, s', c);
    NoteSubmittedOwed(w, s, s', c);
    NoteSubmittedProcess(w, s, s', c);
  }

  lemma NoteSubmittedOp(w: World, s: State, c: nat, j: nat)
    requires Shaped(w, s) && CanNote(s, c) && CampOk(w, s, c)
    requires j < |s.ops| && s.ops[j].owner == c && OpOk(w, s, j)
    ensures OpOk(w, DoNoteSubmitted(s, c), j)
  {
    var s' := DoNoteSubmitted(s, c);
    var rows, rows' := s.camps[c].run.value.rows, s'.camps[c].run.value.rows;
    assert MarkedSent(rows, rows');
    assert InProgress(s.camps[c]);
    assert HoldsLatest(s', j) ==> HoldsLatest(s, j);
    if !s.ops[j].done {
      NoteSubmittedUnfinished(s, s', c, j);
    }
  }

  lemma NoteSubmittedUnfinished(s: State, s': State, c: nat, j: nat)
    requires CanNote(s, c) && s' == DoNoteSubmitted(s, c)
    requires MarkedSent(s.camps[c].run.value.rows, s'.camps[c].run.value.rows)
    requires j < |s.ops| && s.ops[j].owner == c && OpUnfinished(s, j) && s.ops[j].left <= s.ops[j].sent.Keys
    ensures OpUnfinished(s', j)
  {
    var rows, rows' := s.camps[c].run.value.rows, s'.camps[c].run.value.rows;
    assert HoldsRun(s, c, j) && HoldsRun(s', c, j);
    forall v | v in s.ops[j].left
      ensures v in s'.camps[c].owed && v in rows' && Outstanding(rows'[v])
    {
      assert v in rows && Outstanding(rows[v]);
    }
  }

  lemma NoteSubmittedKeeps(w: World, s: State, c: nat)
    requires Inv(w, s) && CanNote(s, c)
    ensures Inv(w, DoNoteSubmitted(s, c))
  {
    var s' := DoNoteSubmitted(s, c);
    assert CampOk(w, s, c);
    NoteSubmittedCamp(w, s, c);
    forall j: nat | j < |s.ops| && s.ops[j].owner == c
      ensures OpOk(w, s', j)
    {
      assert OpOk(w, s, j);
      NoteSubmittedOp(w, s, c, j);
    }
    CampStep(w, s, s', c);
  }

  lemma CollectCamp(w: World, s: State, c: nat, reported: set<Variant>)
    requires Shaped(w, s) && CanCollect(s, c, reported) && CampOk(w, s, c)
    requires OpOk(w, s, s.camps[c].process.value.op.value)
    ensures CampOk(w, DoCollect(s, c, reported), c)
  {
    var s' := DoCollect(s, c, reported);
    SameRunCamp(w, s, s', c);
    CollectHears(w, s, c, reported);
  }

  /** A step that leaves the ledger, the prices and the claim alone leaves what is said of them. */
  lemma SameRunCamp(w: World, s: State, s': State, c: nat)
    requires Shaped(w, s) && c < |s.camps| && c < |s'.camps| && RunOk(w, s, c) && OwedOk(w, s, c)
    requires s' == s.(camps := s.camps[c := s'.camps[c]])
    requires s'.camps[c] == s.camps[c].(process := s'.camps[c].process)
    requires !At(s'.camps[c], Reported)
    ensures RunOk(w, s', c) && OwedOk(w, s', c)
    ensures OpRunning(s', c) == OpRunning(s, c)
  {
    assert Pricing(s') == Pricing(s);
    var run := s.camps[c].run;
    if run.Some? {
      forall v | v in run.value.rows
        ensures RowOk(s', run.value.rows[v], v)
      {
        assert RowOk(s, run.value.rows[v], v);
      }
      if run.value.op.Some? {
        assert HoldsRun(s', c, run.value.op.value);
      }
    }
  }

  lemma CollectHears(w: World, s: State, c: nat, reported: set<Variant>)
    requires Shaped(w, s) && CanCollect(s, c, reported) && RunOk(w, s, c) && ProcessOk(w, s, c)
    requires OpOk(w, s, s.camps[c].process.value.op.value)
    requires OpRunning(DoCollect(s, c, reported), c) == OpRunning(s, c)
    ensures ProcessOk(w, DoCollect(s, c, reported), c)
  {
    assert HearingOk(s, c) && HoldsRun(s, c, s.camps[c].process.value.op.value) && InProgress(s.camps[c]);
    CollectedIsSo(w, s, c, reported);
    HearsCollected(s, DoCollect(s, c, reported), c);
  }

  lemma CollectedIsSo(w: World, s: State, c: nat, reported: set<Variant>)
    requires Shaped(w, s) && CanCollect(s, c, reported) && InProgress(s.camps[c])
    requires OpOk(w, s, s.camps[c].process.value.op.value) && HoldsRun(s, c, s.camps[c].process.value.op.value)
    ensures var heard := DoCollect(s, c, reported).camps[c].process.value.heard;
            forall v :: v in heard ==> v in s.camps[c].run.value.rows && SoOf(s, s.camps[c].run.value.rows[v], heard[v], v)
  {
    var i := s.camps[c].process.value.op.value;
    assert HoldsLatest(s, i);
  }

  /** A process that waited with nothing heard, and has heard what is so. */
  lemma HearsCollected(s: State, s': State, c: nat)
    requires c < |s.camps| && At(s.camps[c], Sending) && LiveRun(s.camps[c]) && HearingOk(s, c)
    requires s.camps[c].process.value.heard == map[] && s.camps[c].process.value.op.Some?
    requires s.ops[s.camps[c].process.value.op.value].done
    requires c < |s'.camps| && s'.camps[c].process.Some? && s' == s.(camps := s.camps[c := s'.camps[c]])
    requires s'.camps[c] == s.camps[c].(process := Some(s.camps[c].process.value.(heard := s'.camps[c].process.value.heard)))
    requires forall v :: v in s'.camps[c].process.value.heard ==>
               v in s.camps[c].run.value.rows && SoOf(s, s.camps[c].run.value.rows[v], s'.camps[c].process.value.heard[v], v)
    ensures HearingOk(s', c)
  {
    assert HoldsRun(s', c, s.camps[c].process.value.op.value);
  }

  lemma CollectOp(w: World, s: State, c: nat, reported: set<Variant>, j: nat)
    requires Shaped(w, s) && CanCollect(s, c, reported) && CampOk(w, s, c) && CampOk(w, DoCollect(s, c, reported), c)
    requires j < |s.ops| && s.ops[j].owner == c && OpOk(w, s, j)
    ensures OpOk(w, DoCollect(s, c, reported), j)
  {
  }

  lemma CollectKeeps(w: World, s: State, c: nat, reported: set<Variant>)
    requires Inv(w, s) && CanCollect(s, c, reported)
    ensures Inv(w, DoCollect(s, c, reported))
  {
    var s' := DoCollect(s, c, reported);
    assert CampOk(w, s, c);
    assert OpOk(w, s, s.camps[c].process.value.op.value);
    CollectCamp(w, s, c, reported);
    forall j: nat | j < |s.ops| && s.ops[j].owner == c
      ensures OpOk(w, s', j)
    {
      assert OpOk(w, s, j);
      CollectOp(w, s, c, reported, j);
    }
    CampStep(w, s, s', c);
  }

  lemma RecordRowCamp(w: World, s: State, c: nat, v: Variant)
    requires Shaped(w, s) && CanRecord(s, c, v) && CampOk(w, s, c)
    ensures CampOk(w, DoRecordRow(s, c, v), c)
  {
    RecordRowRun(w, s, c, v);
    RecordRowOwed(w, s, c, v);
    RecordRowProcess(w, s, c, v);
  }

  lemma RecordRowOwed(w: World, s: State, c: nat, v: Variant)
    requires Shaped(w, s) && CanRecord(s, c, v) && OwedOk(w, s, c)
    ensures OwedOk(w, DoRecordRow(s, c, v), c)
  {
  }

  lemma RecordRowRun(w: World, s: State, c: nat, v: Variant)
    requires Shaped(w, s) && CanRecord(s, c, v) && RunOk(w, s, c) && HearingOk(s, c)
    ensures RunOk(w, DoRecordRow(s, c, v), c)
  {
    var s' := DoRecordRow(s, c, v);
    assert Pricing(s') == Pricing(s);
    assert InProgress(s.camps[c]) && LiveRun(s'.camps[c]);
    RecordedRowsOk(w, s, c, v);
    RecordedSoRun(w, s, s', c, Recorded(s.camps[c].run.value.rows[v], s.camps[c].process.value.heard[v]), v);
  }

  lemma RecordedSoRun(w: World, s: State, s': State, c: nat, r: Row, v: Variant)
    requires Shaped(w, s) && Shaped(w, s') && c < |s.camps| && LiveRun(s.camps[c]) && RunOk(w, s, c)
    requires v in s.camps[c].run.value.rows && r.status != Writing
    requires s'.camps[c].run == Some(s.camps[c].run.value.(rows := s.camps[c].run.value.rows[v := r]))
    requires s'.camps[c].status == s.camps[c].status && Pricing(s') == Pricing(s)
    requires s'.live == s.live && s'.ops == s.ops && s'.ledgered == s.ledgered
    requires TrueRows(s', s.camps[c].run.value.rows, s'.camps[c].run.value.rows)
    ensures RunOk(w, s', c)
  {
    assert InProgress(s.camps[c]);
    var rows' := s'.camps[c].run.value.rows;
    assert forall u :: u in rows' ==> TrueRow(s', rows'[u], u);
    if s.camps[c].run.value.op.Some? {
      assert HoldsRun(s', c, s.camps[c].run.value.op.value);
    }
  }

  /** A row that says nothing false of the storefront. */
  predicate TrueRow(s: State, r: Row, v: Variant) {
    RowOk(s, r, v) && (v in s.live && Landed(r.status) ==> s.live[v] == r.intended)
  }

  /** A ledger with the planned prices of another, that says nothing false. */
  predicate TrueRows(s: State, rows: map<Variant, Row>, rows': map<Variant, Row>) {
    rows'.Keys == rows.Keys
    && forall u :: u in rows' ==> rows'[u].intended == rows[u].intended && rows'[u].clamped == rows[u].clamped && TrueRow(s, rows'[u], u)
  }

  lemma RowsStayTrue(s: State, rows: map<Variant, Row>, v: Variant, r: Row)
    requires v in rows && r.intended == rows[v].intended && r.clamped == rows[v].clamped && TrueRow(s, r, v) && TrueRows(s, rows, rows)
    ensures TrueRows(s, rows, rows[v := r])
  {
  }

  lemma RecordedRowsOk(w: World, s: State, c: nat, v: Variant)
    requires Shaped(w, s) && CanRecord(s, c, v) && RunOk(w, s, c) && HearingOk(s, c)
    ensures TrueRows(DoRecordRow(s, c, v), s.camps[c].run.value.rows, DoRecordRow(s, c, v).camps[c].run.value.rows)
  {
    var rows := s.camps[c].run.value.rows;
    HeardIsSo(w, s, c, v);
    RecordedRowOk(s, rows[v], s.camps[c].process.value.heard[v], v);
    RunRowsAreTrue(w, s, c);
    RowsStayTrue(s, rows, v, Recorded(rows[v], s.camps[c].process.value.heard[v]));
    SameLive(s, DoRecordRow(s, c, v), rows, DoRecordRow(s, c, v).camps[c].run.value.rows);
  }

  lemma SameLive(s: State, s': State, rows: map<Variant, Row>, rows': map<Variant, Row>)
    requires s'.live == s.live && TrueRows(s, rows, rows')
    ensures TrueRows(s', rows, rows')
  {
    forall u | u in rows'
      ensures TrueRow(s', rows'[u], u)
    {
      assert TrueRow(s, rows'[u], u);
    }
  }

  lemma RunRowsAreTrue(w: World, s: State, c: nat)
    requires Shaped(w, s) && c < |s.camps| && LiveRun(s.camps[c]) && RunOk(w, s, c)
    ensures TrueRows(s, s.camps[c].run.value.rows, s.camps[c].run.value.rows)
  {
    assert InProgress(s.camps[c]);
  }

  /** What was heard of `v` is true of the storefront and of the price meant for it. */
  predicate SoOf(s: State, row: Row, h: Heard, v: Variant) {
    && (h.Confirmed? ==> h.observed == row.intended && (v in s.live ==> s.live[v] == h.observed))
    && (h.Gone? ==> v !in s.live)
  }

  lemma HeardIsSo(w: World, s: State, c: nat, v: Variant)
    requires Shaped(w, s) && CanRecord(s, c, v) && RunOk(w, s, c) && HearingOk(s, c)
    ensures RowOk(s, s.camps[c].run.value.rows[v], v)
    ensures SoOf(s, s.camps[c].run.value.rows[v], s.camps[c].process.value.heard[v], v)
  {
  }

  /** The row a result was recorded on says what was heard of it. */
  lemma RecordedRowOk(s: State, row: Row, h: Heard, v: Variant)
    requires Waiting(row.status) && RowOk(s, row, v) && SoOf(s, row, h, v)
    ensures var r := Recorded(row, h);
            TrueRow(s, r, v) && r.intended == row.intended && r.status != Writing
  {
  }

  lemma RecordRowProcess(w: World, s: State, c: nat, v: Variant)
    requires Shaped(w, s) && CanRecord(s, c, v) && ProcessOk(w, s, c)
    ensures ProcessOk(w, DoRecordRow(s, c, v), c)
  {
    var s' := DoRecordRow(s, c, v);
    assert OpRunning(s', c) == OpRunning(s, c);
    if s.camps[c].process.value.op.Some? {
      assert HoldsRun(s', c, s.camps[c].process.value.op.value);
    }
    assert HearingOk(s', c);
  }

  lemma RecordRowOp(w: World, s: State, c: nat, v: Variant, j: nat)
    requires Shaped(w, s) && CanRecord(s, c, v) && CampOk(w, s, c) && CampOk(w, DoRecordRow(s, c, v), c)
    requires j < |s.ops| && s.ops[j].owner == c && OpOk(w, s, j)
    ensures OpOk(w, DoRecordRow(s, c, v), j)
  {
    var s' := DoRecordRow(s, c, v);
    assert HoldsLatest(s', j) <==> HoldsLatest(s, j);
    assert s.ops[j].done;
  }

  lemma RecordRowKeeps(w: World, s: State, c: nat, v: Variant)
    requires Inv(w, s) && CanRecord(s, c, v)
    ensures Inv(w, DoRecordRow(s, c, v))
  {
    var s' := DoRecordRow(s, c, v);
    assert CampOk(w, s, c);
    RecordRowCamp(w, s, c, v);
    forall j: nat | j < |s.ops| && s.ops[j].owner == c
      ensures OpOk(w, s', j)
    {
      assert OpOk(w, s, j);
      RecordRowOp(w, s, c, v, j);
    }
    RecordRowGivesUp(w, s, c, v);
    CampStep(w, s, s', c);
  }

  /** A row recorded as landed shows its price, so it may stop being owed. */
  lemma RecordRowGivesUp(w: World, s: State, c: nat, v: Variant)
    requires Shaped(w, s) && CanRecord(s, c, v) && RunOk(w, s, c) && HearingOk(s, c) && OwedOk(w, s, c)
    ensures OnlyCamp(w, s, DoRecordRow(s, c, v), c) && GivesUpRight(w, s, DoRecordRow(s, c, v), c)
  {
    HeardIsSo(w, s, c, v);
    RecordedRowOk(s, s.camps[c].run.value.rows[v], s.camps[c].process.value.heard[v], v);
    assert InProgress(s.camps[c]);
  }

  lemma FinishRunCamp(w: World, s: State, c: nat)
    requires Shaped(w, s) && CanFinish(s, c) && CampOk(w, s, c)
    ensures CampOk(w, DoFinishRun(s, c), c)
  {
    var s' := DoFinishRun(s, c);
    assert OpRunning(s', c) == OpRunning(s, c);
    FinishRunRun(w, s, c);
    FinishRunOwed(w, s, c);
  }

  lemma CleanIsSettled(s: State, c: nat)
    requires c < |s.camps| && LiveRun(s.camps[c]) && s.camps[c].process.Some? && HearingOk(s, c) && AllRecorded(s.camps[c])
    ensures CleanRun(s.camps[c]) ==> forall v :: v in s.camps[c].run.value.rows ==> Settled(s.camps[c].run.value.rows[v].status)
  {
  }

  /** A run that ends clean has heard every row settled, and recorded it. */
  lemma FinishRunRun(w: World, s: State, c: nat)
    requires Shaped(w, s) && CanFinish(s, c) && RunOk(w, s, c) && ProcessOk(w, s, c)
    ensures RunOk(w, DoFinishRun(s, c), c)
  {
    var s' := DoFinishRun(s, c);
    assert Pricing(s') == Pricing(s);
    var run := s.camps[c].run.value;
    assert HearingOk(s, c) && AllRecorded(s.camps[c]);
    CleanIsSettled(s, c);
    forall v | v in run.rows
      ensures RowOk(s', run.rows[v], v)
    {
      assert RowOk(s, run.rows[v], v);
    }
    if run.op.Some? {
      assert HoldsRun(s', c, run.op.value);
    }
  }

  lemma FinishRunOwed(w: World, s: State, c: nat)
    requires Shaped(w, s) && CanFinish(s, c) && OwedOk(w, s, c)
    ensures OwedOk(w, DoFinishRun(s, c), c)
  {
  }

  lemma FinishRunOp(w: World, s: State, c: nat, j: nat)
    requires Shaped(w, s) && CanFinish(s, c) && CampOk(w, s, c) && CampOk(w, DoFinishRun(s, c), c)
    requires j < |s.ops| && s.ops[j].owner == c && OpOk(w, s, j)
    ensures OpOk(w, DoFinishRun(s, c), j)
  {
  }

  lemma FinishRunKeeps(w: World, s: State, c: nat)
    requires Inv(w, s) && CanFinish(s, c)
    ensures Inv(w, DoFinishRun(s, c))
  {
    var s' := DoFinishRun(s, c);
    assert CampOk(w, s, c);
    FinishRunCamp(w, s, c);
    forall j: nat | j < |s.ops| && s.ops[j].owner == c
      ensures OpOk(w, s', j)
    {
      assert OpOk(w, s, j);
      FinishRunOp(w, s, c, j);
    }
    CampStep(w, s, s', c);
  }

  lemma CloseCamp(w: World, s: State, c: nat)
    requires Shaped(w, s) && CanClose(s, c) && CampOk(w, s, c)
    ensures CampOk(w, DoClose(s, c), c)
  {
    var s' := DoClose(s, c);
    assert Pricing(s') == Pricing(s);
    assert OpRunning(s', c) == OpRunning(s, c);
    if s.camps[c].run.value.op.Some? {
      assert HoldsRun(s', c, s.camps[c].run.value.op.value);
    }
  }

  lemma CloseOp(w: World, s: State, c: nat, j: nat)
    requires Shaped(w, s) && CanClose(s, c) && CampOk(w, s, c) && CampOk(w, DoClose(s, c), c)
    requires j < |s.ops| && s.ops[j].owner == c && OpOk(w, s, j)
    ensures OpOk(w, DoClose(s, c), j)
  {
  }

  lemma CloseKeeps(w: World, s: State, c: nat)
    requires Inv(w, s) && CanClose(s, c)
    ensures Inv(w, DoClose(s, c))
  {
    var s' := DoClose(s, c);
    assert CampOk(w, s, c);
    CloseCamp(w, s, c);
    forall j: nat | j < |s.ops| && s.ops[j].owner == c
      ensures OpOk(w, s', j)
    {
      assert OpOk(w, s, j);
      CloseOp(w, s, c, j);
    }
    CampStep(w, s, s', c);
  }

  lemma DieCamp(w: World, s: State, c: nat)
    requires Shaped(w, s) && c < |s.camps| && s.camps[c].process.Some? && CampOk(w, s, c)
    ensures CampOk(w, SetCamp(s, c, s.camps[c].(process := None)), c)
  {
    var s' := SetCamp(s, c, s.camps[c].(process := None));
    assert Pricing(s') == Pricing(s);
    assert OpRunning(s', c) == OpRunning(s, c);
    var run := s.camps[c].run;
    if run.Some? && run.value.op.Some? {
      assert HoldsRun(s', c, run.value.op.value);
    }
  }

  lemma DieOp(w: World, s: State, c: nat, j: nat)
    requires Shaped(w, s) && c < |s.camps| && s.camps[c].process.Some? && CampOk(w, s, c) && CampOk(w, SetCamp(s, c, s.camps[c].(process := None)), c)
    requires j < |s.ops| && s.ops[j].owner == c && OpOk(w, s, j)
    ensures OpOk(w, SetCamp(s, c, s.camps[c].(process := None)), j)
  {
  }

  lemma DieKeeps(w: World, s: State, c: nat)
    requires Inv(w, s) && Shaped(w, s) && c < |s.camps| && s.camps[c].process.Some?
    ensures Inv(w, SetCamp(s, c, s.camps[c].(process := None)))
  {
    var s' := SetCamp(s, c, s.camps[c].(process := None));
    assert CampOk(w, s, c);
    DieCamp(w, s, c);
    forall j: nat | j < |s.ops| && s.ops[j].owner == c
      ensures OpOk(w, s', j)
    {
      assert OpOk(w, s, j);
      DieOp(w, s, c, j);
    }
    CampStep(w, s, s', c);
  }

  // ---------------------------------------------------------- bulk submission

  lemma SubmitKeeps(w: World, s: State, c: nat)
    requires Inv(w, s) && CanSubmit(s, c)
    ensures Inv(w, DoSubmit(s, c))
  {
    var s' := DoSubmit(s, c);
    assert CampOk(w, s, c);
    ApartWhenBusy(w, s, c);
    SubmitCamp(w, s, c);
    forall j: nat | j < |s'.ops| && s'.ops[j].owner == c
      ensures OpOk(w, s', j)
    {
      if j < |s.ops| {
        assert OpOk(w, s, j);
      }
      SubmitOp(w, s, c, j);
    }
    forall v | v in w.defs[c].scope
      ensures MirrorOk(s', v) && PriceOk(w, s', v)
    {
      assert MirrorOk(s, v) && PriceOk(w, s, v);
      SubmitVariant(w, s, c, v);
    }
    SubmitLocal(w, s, c);
    Assemble(w, s, s', c);
  }

  lemma SubmitLocal(w: World, s: State, c: nat)
    requires Shaped(w, s) && CanSubmit(s, c) && OwedOk(w, s, c)
    ensures Local(w, s, DoSubmit(s, c), c)
  {
  }

  lemma SubmitVariant(w: World, s: State, c: nat, v: Variant)
    requires Shaped(w, s) && CanSubmit(s, c) && MirrorOk(s, v) && PriceOk(w, s, v)
    ensures MirrorOk(DoSubmit(s, c), v) && PriceOk(w, DoSubmit(s, c), v)
  {
    assert Pricing(DoSubmit(s, c)) == Pricing(s);
    VariantKeeps(w, s, DoSubmit(s, c), v);
  }

  lemma SubmitCamp(w: World, s: State, c: nat)
    requires Shaped(w, s) && CanSubmit(s, c) && CampOk(w, s, c)
    ensures CampOk(w, DoSubmit(s, c), c)
  {
    var s' := DoSubmit(s, c);
    assert Pricing(s') == Pricing(s);
    var rows := s.camps[c].run.value.rows;
    forall v | v in rows
      ensures RowOk(s', rows[v], v)
    {
      assert RowOk(s, rows[v], v);
    }
    assert HoldsRun(s', c, |s.ops|);
  }

  lemma SubmitOldOp(w: World, s: State, c: nat, j: nat)
    requires Shaped(w, s) && CanSubmit(s, c) && CampOk(w, s, c)
    requires j < |s.ops| && s.ops[j].owner == c && OpOk(w, s, j)
    ensures OpOk(w, DoSubmit(s, c), j)
  {
    assert !OpRunning(s, c);
    assert s.ops[j].done;
  }

  lemma SubmitOp(w: World, s: State, c: nat, j: nat)
    requires Shaped(w, s) && CanSubmit(s, c) && CampOk(w, s, c) && j <= |s.ops|
    requires j < |s.ops| ==> s.ops[j].owner == c && OpOk(w, s, j)
    ensures OpOk(w, DoSubmit(s, c), j)
  {
    if j < |s.ops| {
      SubmitOldOp(w, s, c, j);
    } else {
      SubmitNewOp(w, s, c);
    }
  }

  lemma SubmitNewOp(w: World, s: State, c: nat)
    requires Shaped(w, s) && CanSubmit(s, c) && CampOk(w, s, c)
    ensures OpOk(w, DoSubmit(s, c), |s.ops|)
  {
    var s' := DoSubmit(s, c);
    var rows := s.camps[c].run.value.rows;
    var i := |s.ops|;
    assert HoldsRun(s', c, i);
    assert s'.ops[i].sent.Keys == rows.Keys != {};
    forall j | 0 <= j < |s'.ops| && j != i && !s'.ops[j].done
      ensures s'.ops[j].owner != c
    {
      assert !OpRunning(s, c) && s'.ops[j] == s.ops[j];
    }
    forall v | v in s'.ops[i].left
      ensures v in s'.camps[c].owed && Outstanding(rows[v])
    {
    }
  }
}
