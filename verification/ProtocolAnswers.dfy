/** A run to its close, whatever the store answers for each row: what it leaves, exactly. */
module ProtocolAnswers {
  import opened Wrappers
  import opened Lifecycle
  import opened Ledger
  import opened Protocol

  // ------------------------------------------------------- runs end to end

  lemma {:induction false} AfterAppend(w: World, s: State, es: seq<Event>, e: Event)
    requires Runs(w, s, es) && Enabled(w, After(w, s, es), e)
    ensures Runs(w, s, es + [e]) && After(w, s, es + [e]) == Step(w, After(w, s, es), e)
    decreases |es|
  {
    if es == [] {
      assert [e][1..] == [];
    } else {
      assert (es + [e])[1..] == es[1..] + [e];
      AfterAppend(w, Step(w, s, es[0]), es[1..], e);
    }
  }

  /** Running on by any rule for what may happen next. */
  function RunBy<S, E>(next: (S, E) -> Option<S>, s: S, es: seq<E>): Option<S>
    decreases |es|
  {
    if es == [] then Some(s)
    else if next(s, es[0]).None? then None
    else RunBy(next, next(s, es[0]).value, es[1..])
  }

  lemma {:induction false} RunByConcat<S, E>(next: (S, E) -> Option<S>, s: S, es: seq<E>, fs: seq<E>)
    requires RunBy(next, s, es).Some?
    ensures RunBy(next, s, es + fs) == RunBy(next, RunBy(next, s, es).value, fs)
    decreases |es|
  {
    if es == [] {
      assert es + fs == fs;
    } else {
      assert (es + fs)[1..] == es[1..] + fs;
      RunByConcat(next, next(s, es[0]).value, es[1..], fs);
    }
  }

  function Next(w: World): (State, Event) -> Option<State> {
    (s: State, e: Event) => if Enabled(w, s, e) then Some(Step(w, s, e)) else None
  }

  lemma {:induction false} RunsByNext(w: World, s: State, es: seq<Event>)
    ensures Runs(w, s, es) <==> RunBy(Next(w), s, es).Some?
    ensures Runs(w, s, es) ==> RunBy(Next(w), s, es) == Some(After(w, s, es))
    decreases |es|
  {
    if es != [] && Enabled(w, s, es[0]) {
      RunsByNext(w, Step(w, s, es[0]), es[1..]);
    }
  }

  lemma AfterConcat(w: World, s: State, es: seq<Event>, fs: seq<Event>)
    requires Runs(w, s, es) && Runs(w, After(w, s, es), fs)
    ensures Runs(w, s, es + fs) && After(w, s, es + fs) == After(w, After(w, s, es), fs)
  {
    RunsByNext(w, s, es);
    RunsByNext(w, After(w, s, es), fs);
    RunsByNext(w, s, es + fs);
    RunByConcat(Next(w), s, es, fs);
  }

  lemma RunsOne(w: World, s: State, e: Event)
    requires Enabled(w, s, e)
    ensures Runs(w, s, [e]) && After(w, s, [e]) == Step(w, s, e)
  {
    assert [e][1..] == [];
  }

  lemma RunsPair(w: World, s: State, e: Event, f: Event)
    requires Enabled(w, s, e) && Enabled(w, Step(w, s, e), f)
    ensures Runs(w, s, [e, f]) && After(w, s, [e, f]) == Step(w, Step(w, s, e), f)
  {
    RunsOne(w, Step(w, s, e), f);
    assert [e, f][1..] == [f];
  }

  /** The members of a set, in some order. */
  ghost function Listed(vs: set<Variant>): (r: seq<Variant>)
    ensures Distinct(r) && forall v :: v in r <==> v in vs
  {
    if vs == {} then []
    else
      var v :| v in vs;
      var rest := Listed(vs - {v});
      assert forall i :: 0 <= i < |rest| ==> rest[i] in vs - {v};
      [v] + rest
  }

  predicate Distinct(vs: seq<Variant>) {
    forall i, j :: 0 <= i < j < |vs| ==> vs[i] != vs[j]
  }

  function Members(vs: seq<Variant>): set<Variant> {
    set v | v in vs
  }

  // ------------------------------------------------------ recording and closing

  /** Every row of `c`'s run has been heard of, and nothing recorded yet. */
  predicate AllHeard(s: State, c: nat) {
    && c < |s.camps| && LiveRun(s.camps[c])
    && (At(s.camps[c], Sending) || (At(s.camps[c], Opened) && s.camps[c].run.value.rows == map[]))
    && s.camps[c].process.value.heard.Keys == s.camps[c].run.value.rows.Keys
    && forall v :: v in s.camps[c].run.value.rows ==> Waiting(s.camps[c].run.value.rows[v].status)
  }

  function RecordEach(c: nat, vs: seq<Variant>): seq<Event> {
    if vs == [] then [] else [RecordRow(c, vs[0])] + RecordEach(c, vs[1..])
  }

  function Closing(c: nat, vs: seq<Variant>): seq<Event> {
    RecordEach(c, vs) + ([SettleMirror(c), FinishRun(c)] + [Close(c)])
  }

  /** Nothing more is owed on a row heard of so. */
  predicate Final(h: Heard) {
    h.Confirmed? || h.Gone?
  }

  /** What the ledger says of a row in the end, by what was heard of it. */
  predicate RowSays(row: Row, row': Row, h: Heard) {
    && row'.intended == row.intended && row'.clamped == row.clamped
    && match h
       case Confirmed(price) =>
         row'.status == (if row.clamped then Clamped else Verified) && row'.observed == Some(price) && row'.attempt == row.attempt
       case Gone => row'.status == Skipped && row'.observed == row.observed && row'.attempt == row.attempt + 1
       case Rejected => row'.status == Failed && row'.observed == row.observed && row'.attempt == row.attempt + 1
       case Wrote => row'.status == Applied && row'.observed == row.observed && row'.attempt == row.attempt + 1
  }

  /** What the mirror knows of a row in the end: a price read back, what it knew of a variant that is gone, and else nothing. */
  predicate MirrorSays(mirror: map<Variant, Price>, mirror': map<Variant, Price>, v: Variant, row: Row, h: Heard) {
    match h
    case Confirmed(_) => v in mirror' && mirror'[v] == row.intended
    case Gone => (v in mirror' <==> v in mirror) && (v in mirror ==> mirror'[v] == mirror[v])
    case _ => v !in mirror'
  }

  /**
   * What closing leaves of a run whose rows were heard of so: each row as it was heard, the campaign where
   * its kind ends when every row is final and Partial otherwise, still owing the rows that are not.
   */
  ghost predicate Ended(s: State, a: State, c: nat, heard: map<Variant, Heard>) {
    && c < |s.camps| && s.camps[c].run.Some? && s.camps[c].process.Some? && heard.Keys == s.camps[c].run.value.rows.Keys
    && |a.camps| == |s.camps| && (forall d: nat :: d < |s.camps| && d != c ==> a.camps[d] == s.camps[d])
    && a.camps[c].process.None? && a.camps[c].run.Some?
    && LedgerSays(s.camps[c].run.value.rows, a.camps[c].run.value.rows, heard)
    && a.camps[c].run.value.kind == s.camps[c].run.value.kind
    && a.camps[c].run.value.status == (if AllFinal(heard) then RunCompleted else RunPartial)
    && a.camps[c].status == (if !AllFinal(heard) then Partial else if s.camps[c].process.value.kind == Apply then Active else Completed)
    && a.camps[c].owed == StillOwed(s.camps[c].owed, heard, heard.Keys)
    && MirrorIsTold(s.mirror, a.mirror, s.camps[c].run.value.rows, heard)
  }

  predicate AllFinal(heard: map<Variant, Heard>) {
    forall v :: v in heard ==> Final(heard[v])
  }

  predicate LedgerSays(rows: map<Variant, Row>, rows': map<Variant, Row>, heard: map<Variant, Heard>)
    requires rows.Keys == heard.Keys
  {
    rows'.Keys == rows.Keys && forall v :: v in rows ==> RowSays(rows[v], rows'[v], heard[v])
  }

  ghost predicate MirrorIsTold(mirror: map<Variant, Price>, mirror': map<Variant, Price>, rows: map<Variant, Row>,
                               heard: map<Variant, Heard>)
    requires rows.Keys == heard.Keys
  {
    && (forall v :: v in rows ==> MirrorSays(mirror, mirror', v, rows[v], heard[v]))
    && (forall v :: v !in rows ==> (v in mirror' <==> v in mirror) && (v in mirror ==> mirror'[v] == mirror[v]))
  }

  /** What is owed once the rows `done` have been recorded. */
  function StillOwed(owed: set<Variant>, heard: map<Variant, Heard>, done: set<Variant>): set<Variant> {
    set v | v in owed && !(v in done && v in heard && Final(heard[v]))
  }

  /** The ledger with the rows `done` recorded. */
  function LedgerWith(rows: map<Variant, Row>, heard: map<Variant, Heard>, done: set<Variant>): map<Variant, Row>
    requires done <= rows.Keys == heard.Keys
  {
    map v | v in rows :: if v in done then Recorded(rows[v], heard[v]) else rows[v]
  }

  /** Rows `done` recorded, and nothing else touched. */
  predicate RecordedUpTo(s0: State, s: State, c: nat, done: set<Variant>)
    requires AllHeard(s0, c)
  {
    var k := s0.camps[c];
    var rows, heard := k.run.value.rows, k.process.value.heard;
    && done <= rows.Keys
    && |s.camps| == |s0.camps| && (forall d: nat :: d < |s.camps| && d != c ==> s.camps[d] == s0.camps[d])
    && s == s0.(camps := s.camps)
    && s.camps[c].status == k.status && s.camps[c].process.Some?
    && s.camps[c].process.value == k.process.value.(phase := s.camps[c].process.value.phase)
    && s.camps[c].process.value.phase in {Opened, Sending, Recording}
    && (rows != map[] ==> s.camps[c].process.value.phase in {Sending, Recording})
    && s.camps[c].run == Some(k.run.value.(rows := LedgerWith(rows, heard, done)))
    && s.camps[c].owed == StillOwed(k.owed, heard, done)
  }

  lemma RecordsOne(s0: State, s: State, c: nat, done: set<Variant>, v: Variant)
    requires AllHeard(s0, c) && RecordedUpTo(s0, s, c, done) && v in s0.camps[c].run.value.rows && v !in done
    ensures CanRecord(s, c, v) && RecordedUpTo(s0, DoRecordRow(s, c, v), c, done + {v})
  {
    var k, s' := s0.camps[c], DoRecordRow(s, c, v);
    var heard := k.process.value.heard;
    assert s'.camps[c].run.value.rows == LedgerWith(k.run.value.rows, heard, done + {v});
    assert s'.camps[c].owed == StillOwed(k.owed, heard, done + {v});
  }

  lemma MembersOfRest(vs: seq<Variant>, done: set<Variant>)
    requires vs != [] && Distinct(vs) && forall v :: v in vs ==> v !in done
    ensures Distinct(vs[1..]) && done + {vs[0]} + Members(vs[1..]) == done + Members(vs)
    ensures forall v :: v in vs[1..] ==> v in vs && v !in done + {vs[0]}
  {
  }

  lemma {:induction false} RecordsEach(w: World, s0: State, s: State, c: nat, done: set<Variant>, vs: seq<Variant>)
    requires Shaped(w, s0) && AllHeard(s0, c) && RecordedUpTo(s0, s, c, done)
    requires Distinct(vs) && forall v :: v in vs ==> v in s0.camps[c].run.value.rows && v !in done
    ensures Runs(w, s, RecordEach(c, vs))
    ensures RecordedUpTo(s0, After(w, s, RecordEach(c, vs)), c, done + Members(vs))
    decreases |vs|
  {
    if vs == [] {
      assert done + Members(vs) == done;
    } else {
      var v, rest := vs[0], vs[1..];
      RecordsOne(s0, s, c, done, v);
      RunsOne(w, s, RecordRow(c, v));
      MembersOfRest(vs, done);
      RecordsEach(w, s0, DoRecordRow(s, c, v), c, done + {v}, rest);
      AfterConcat(w, s, [RecordRow(c, v)], RecordEach(c, rest));
    }
  }

  lemma RecordedSays(rows: map<Variant, Row>, heard: map<Variant, Heard>)
    requires rows.Keys == heard.Keys
    ensures LedgerSays(rows, LedgerWith(rows, heard, rows.Keys), heard)
  {
  }

  lemma MirroredSays(mirror: map<Variant, Price>, rows: map<Variant, Row>, heard: map<Variant, Heard>)
    requires rows.Keys == heard.Keys
    ensures MirrorIsTold(mirror, Mirrored(mirror, LedgerWith(rows, heard, rows.Keys)), rows, heard)
  {
    var told := Mirrored(mirror, LedgerWith(rows, heard, rows.Keys));
    forall v | v in rows
      ensures MirrorSays(mirror, told, v, rows[v], heard[v])
    {
      RecordedSays(rows, heard);
    }
  }

  /** Everything recorded: the mirror is settled, the run finished and the campaign closed. */
  lemma Closes(w: World, s0: State, s: State, c: nat)
    requires Shaped(w, s0) && AllHeard(s0, c) && RecordedUpTo(s0, s, c, s0.camps[c].run.value.rows.Keys)
    ensures var es := [SettleMirror(c), FinishRun(c)] + [Close(c)];
            Runs(w, s, es) && After(w, s, es).live == s0.live && After(w, s, es).ops == s0.ops
            && Ended(s0, After(w, s, es), c, s0.camps[c].process.value.heard)
  {
    var rows, heard := s0.camps[c].run.value.rows, s0.camps[c].process.value.heard;
    MaySettle(s0, s, c);
    var s1 := DoSettleMirror(s, c);
    ClosingRuns(w, s, c);
    assert MirrorIsTold(s0.mirror, s1.mirror, rows, heard) by {
      MirroredSays(s0.mirror, rows, heard);
    }
    assert LedgerSays(rows, s1.camps[c].run.value.rows, heard) by {
      RecordedSays(rows, heard);
    }
    EndsAsHeard(s0, s1, c);
  }

  lemma EndsAsHeard(s0: State, s1: State, c: nat)
    requires AllHeard(s0, c) && CanFinish(s1, c) && CanClose(DoFinishRun(s1, c), c)
    requires |s1.camps| == |s0.camps| && forall d: nat :: d < |s1.camps| && d != c ==> s1.camps[d] == s0.camps[d]
    requires s1.camps[c].process.value.heard == s0.camps[c].process.value.heard
    requires s1.camps[c].process.value.kind == s0.camps[c].process.value.kind
    requires s1.camps[c].run.value.kind == s0.camps[c].run.value.kind
    requires LedgerSays(s0.camps[c].run.value.rows, s1.camps[c].run.value.rows, s0.camps[c].process.value.heard)
    requires s1.camps[c].owed == StillOwed(s0.camps[c].owed, s0.camps[c].process.value.heard, s0.camps[c].run.value.rows.Keys)
    requires MirrorIsTold(s0.mirror, s1.mirror, s0.camps[c].run.value.rows, s0.camps[c].process.value.heard)
    ensures Ended(s0, DoClose(DoFinishRun(s1, c), c), c, s0.camps[c].process.value.heard)
  {
    CleanWhenFinal(s0, s1, c);
  }

  lemma ClosingRuns(w: World, s: State, c: nat)
    requires Shaped(w, s) && CanSettleMirror(s, c) && CanFinish(DoSettleMirror(s, c), c)
    requires CanClose(DoFinishRun(DoSettleMirror(s, c), c), c)
    ensures var es := [SettleMirror(c), FinishRun(c)] + [Close(c)];
            Runs(w, s, es) && After(w, s, es) == DoClose(DoFinishRun(DoSettleMirror(s, c), c), c)
  {
    RunsPair(w, s, SettleMirror(c), FinishRun(c));
    AfterAppend(w, s, [SettleMirror(c), FinishRun(c)], Close(c));
  }

  lemma MaySettle(s0: State, s: State, c: nat)
    requires AllHeard(s0, c) && RecordedUpTo(s0, s, c, s0.camps[c].run.value.rows.Keys)
    ensures CanSettleMirror(s, c) && CanFinish(DoSettleMirror(s, c), c) && CanClose(DoFinishRun(DoSettleMirror(s, c), c), c)
  {
    assert AllRecorded(s.camps[c]);
  }

  lemma CleanWhenFinal(s0: State, s1: State, c: nat)
    requires AllHeard(s0, c) && c < |s1.camps| && s1.camps[c].run.Some? && s1.camps[c].process.Some?
    requires s1.camps[c].process.value.heard == s0.camps[c].process.value.heard
    requires s1.camps[c].run.value.rows.Keys == s0.camps[c].run.value.rows.Keys
    ensures CleanRun(s1.camps[c]) <==> AllFinal(s0.camps[c].process.value.heard)
  {
  }

  /** From the last row heard of to the close. */
  lemma RecordsAndCloses(w: World, s: State, c: nat)
    requires Shaped(w, s) && AllHeard(s, c)
    ensures var es := Closing(c, Listed(s.camps[c].run.value.rows.Keys));
            Runs(w, s, es) && After(w, s, es).live == s.live && After(w, s, es).ops == s.ops
            && Ended(s, After(w, s, es), c, s.camps[c].process.value.heard)
  {
    var rows, vs := s.camps[c].run.value.rows, Listed(s.camps[c].run.value.rows.Keys);
    assert Members(vs) == rows.Keys && {} + Members(vs) == rows.Keys;
    NothingRecorded(s, c);
    RecordsEach(w, s, s, c, {}, vs);
    Closes(w, s, After(w, s, RecordEach(c, vs)), c);
    AfterConcat(w, s, RecordEach(c, vs), [SettleMirror(c), FinishRun(c)] + [Close(c)]);
  }

  lemma NothingRecorded(s: State, c: nat)
    requires AllHeard(s, c)
    ensures RecordedUpTo(s, s, c, {})
  {
    var k := s.camps[c];
    assert LedgerWith(k.run.value.rows, k.process.value.heard, {}) == k.run.value.rows;
    assert StillOwed(k.owed, k.process.value.heard, {}) == k.owed;
  }

  // -------------------------------------------------------------- row by row

  /** Campaign `c` has planned and sent nothing yet. */
  predicate ReadyToSend(s: State, c: nat) {
    c < |s.camps| && At(s.camps[c], Opened) && LiveRun(s.camps[c])
    && s.camps[c].process.value.op.None? && s.camps[c].process.value.heard == map[]
    && forall v :: v in s.camps[c].run.value.rows ==> s.camps[c].run.value.rows[v].status == Pending
  }

  function RowsOf(s: State, c: nat): map<Variant, Row>
    requires ReadyToSend(s, c)
  {
    s.camps[c].run.value.rows
  }

  /** The store's answer to one row: taken and read back, taken and not read back, or an exception, after landing or not. */
  datatype Reply = Confirms | NotRead | Throws(landed: bool)

  /** A row no reply is listed for is taken and read back. */
  function ReplyTo(rs: map<Variant, Reply>, v: Variant): Reply {
    if v in rs then rs[v] else Confirms
  }

  function SendOne(live: set<Variant>, c: nat, v: Variant, r: Reply): seq<Event> {
    match r
    case Throws(landed) => [Refuse(c, v, landed)]
    case NotRead => [Write(c, v)]
    case Confirms => if v in live then [Write(c, v), ReadBack(c, v)] else [Write(c, v)]
  }

  function SendEach(live: set<Variant>, c: nat, vs: seq<Variant>, rs: map<Variant, Reply>): seq<Event> {
    if vs == [] then [] else SendOne(live, c, vs[0], ReplyTo(rs, vs[0])) + SendEach(live, c, vs[1..], rs)
  }

  /** The storefront once the rows `done` have been sent: those that landed show their price. */
  function LiveWith(live: map<Variant, Price>, rows: map<Variant, Row>, done: set<Variant>, rs: map<Variant, Reply>): map<Variant, Price>
    requires done <= rows.Keys
  {
    map v | v in live :: if v in done && ReplyTo(rs, v) != Throws(false) then rows[v].intended else live[v]
  }

  /** What the run has heard of the rows `done`. */
  function HeardOf(live: map<Variant, Price>, rows: map<Variant, Row>, done: set<Variant>, rs: map<Variant, Reply>): map<Variant, Heard>
    requires done <= rows.Keys
  {
    map v | v in done ::
      if ReplyTo(rs, v).Throws? then Rejected
      else if v !in live then Gone
      else if ReplyTo(rs, v).NotRead? then Wrote
      else Confirmed(rows[v].intended)
  }

  /** Only `c`'s campaign and the storefront differ, rows `done` having been sent and heard of. */
  predicate SentUpTo(s0: State, s: State, c: nat, done: set<Variant>, rs: map<Variant, Reply>)
    requires ReadyToSend(s0, c)
  {
    var k := s0.camps[c];
    && done <= RowsOf(s0, c).Keys
    && s == s0.(live := LiveWith(s0.live, RowsOf(s0, c), done, rs), camps := s.camps, accepted := s.accepted)
    && s.camps == s0.camps[c := k.(process := Some(k.process.value.(phase := if done == {} then Opened else Sending,
                                                                    heard := HeardOf(s0.live, RowsOf(s0, c), done, rs))))]
  }

  lemma SendsOne(w: World, s0: State, s: State, c: nat, done: set<Variant>, v: Variant, rs: map<Variant, Reply>)
    requires Shaped(w, s0) && ReadyToSend(s0, c) && SentUpTo(s0, s, c, done, rs) && v in RowsOf(s0, c) && v !in done
    ensures var es := SendOne(s0.live.Keys, c, v, ReplyTo(rs, v));
            Runs(w, s, es) && SentUpTo(s0, After(w, s, es), c, done + {v}, rs)
  {
    match ReplyTo(rs, v)
    case Throws(landed) =>
      Refuses(s0, s, c, done, v, rs, landed);
      RunsOne(w, s, Refuse(c, v, landed));
    case NotRead =>
      Writes(s0, s, c, done, v, rs);
      RunsOne(w, s, Write(c, v));
    case Confirms =>
      if v in s0.live {
        WritesAndReads(s0, s, c, done, v, rs);
        RunsPair(w, s, Write(c, v), ReadBack(c, v));
      } else {
        Writes(s0, s, c, done, v, rs);
        RunsOne(w, s, Write(c, v));
      }
  }

  lemma Refuses(s0: State, s: State, c: nat, done: set<Variant>, v: Variant, rs: map<Variant, Reply>, landed: bool)
    requires ReadyToSend(s0, c) && SentUpTo(s0, s, c, done, rs) && v in RowsOf(s0, c) && v !in done && ReplyTo(rs, v) == Throws(landed)
    ensures CanSend(s, c, v) && SentUpTo(s0, DoRefuse(s, c, v, landed), c, done + {v}, rs)
  {
    var rows, s1 := RowsOf(s0, c), DoRefuse(s, c, v, landed);
    HearsOne(s0.live, rows, done, v, rs);
    assert s1.live == LiveWith(s0.live, rows, done + {v}, rs);
    assert s1.camps == s0.camps[c := s1.camps[c]];
  }

  lemma Writes(s0: State, s: State, c: nat, done: set<Variant>, v: Variant, rs: map<Variant, Reply>)
    requires ReadyToSend(s0, c) && SentUpTo(s0, s, c, done, rs) && v in RowsOf(s0, c) && v !in done
    requires ReplyTo(rs, v).NotRead? || (ReplyTo(rs, v).Confirms? && v !in s0.live)
    ensures CanSend(s, c, v) && SentUpTo(s0, DoWrite(s, c, v), c, done + {v}, rs)
  {
    var rows, s1 := RowsOf(s0, c), DoWrite(s, c, v);
    HearsOne(s0.live, rows, done, v, rs);
    assert s1.live == LiveWith(s0.live, rows, done + {v}, rs);
    assert s1.camps == s0.camps[c := s1.camps[c]];
  }

  lemma HearsOne(live: map<Variant, Price>, rows: map<Variant, Row>, done: set<Variant>, v: Variant, rs: map<Variant, Reply>)
    requires done <= rows.Keys && v in rows && v !in done
    ensures HeardOf(live, rows, done + {v}, rs) == HeardOf(live, rows, done, rs)[v := HeardOf(live, rows, {v}, rs)[v]]
  {
  }

  lemma WritesAndReads(s0: State, s: State, c: nat, done: set<Variant>, v: Variant, rs: map<Variant, Reply>)
    requires ReadyToSend(s0, c) && SentUpTo(s0, s, c, done, rs) && v in RowsOf(s0, c) && v !in done && v in s0.live
    requires ReplyTo(rs, v).Confirms?
    ensures CanSend(s, c, v) && CanReadBack(DoWrite(s, c, v), c, v)
    ensures SentUpTo(s0, DoReadBack(DoWrite(s, c, v), c, v), c, done + {v}, rs)
  {
    WritesLive(s0, s, c, done, v, rs);
    ReadsLive(s0, DoWrite(s, c, v), c, done, v, rs);
  }

  /** A row sent and not read back yet. */
  predicate WrittenUnread(s0: State, s1: State, c: nat, done: set<Variant>, v: Variant, rs: map<Variant, Reply>)
    requires ReadyToSend(s0, c) && done + {v} <= RowsOf(s0, c).Keys
  {
    var k := s0.camps[c];
    && s1 == s0.(live := LiveWith(s0.live, RowsOf(s0, c), done + {v}, rs), camps := s1.camps, accepted := s1.accepted)
    && s1.camps == s0.camps[c := k.(process := Some(k.process.value.(phase := Sending,
                                                                    heard := HeardOf(s0.live, RowsOf(s0, c), done, rs)[v := Wrote])))]
  }

  lemma WritesLive(s0: State, s: State, c: nat, done: set<Variant>, v: Variant, rs: map<Variant, Reply>)
    requires ReadyToSend(s0, c) && SentUpTo(s0, s, c, done, rs) && v in RowsOf(s0, c) && v !in done && v in s0.live
    requires ReplyTo(rs, v).Confirms?
    ensures CanSend(s, c, v) && WrittenUnread(s0, DoWrite(s, c, v), c, done, v, rs)
  {
    var s1 := DoWrite(s, c, v);
    assert s1.live == LiveWith(s0.live, RowsOf(s0, c), done + {v}, rs);
    assert s1.camps == s0.camps[c := s1.camps[c]];
  }

  lemma ReadsLive(s0: State, s1: State, c: nat, done: set<Variant>, v: Variant, rs: map<Variant, Reply>)
    requires ReadyToSend(s0, c) && done <= RowsOf(s0, c).Keys && v in RowsOf(s0, c) && v !in done && v in s0.live
    requires ReplyTo(rs, v).Confirms? && WrittenUnread(s0, s1, c, done, v, rs)
    ensures CanReadBack(s1, c, v) && SentUpTo(s0, DoReadBack(s1, c, v), c, done + {v}, rs)
  {
    var s2 := DoReadBack(s1, c, v);
    assert s2.camps == s0.camps[c := s2.camps[c]];
    assert s2.camps[c].process.value.heard == HeardOf(s0.live, RowsOf(s0, c), done + {v}, rs);
  }

  lemma {:induction false} SendsEach(w: World, s0: State, s: State, c: nat, done: set<Variant>, vs: seq<Variant>, rs: map<Variant, Reply>)
    requires Shaped(w, s0) && ReadyToSend(s0, c) && SentUpTo(s0, s, c, done, rs)
    requires Distinct(vs) && forall v :: v in vs ==> v in RowsOf(s0, c) && v !in done
    ensures Runs(w, s, SendEach(s0.live.Keys, c, vs, rs))
    ensures SentUpTo(s0, After(w, s, SendEach(s0.live.Keys, c, vs, rs)), c, done + Members(vs), rs)
    decreases |vs|
  {
    if vs == [] {
      assert done + Members(vs) == done;
    } else {
      var v := vs[0];
      var es := SendOne(s0.live.Keys, c, v, ReplyTo(rs, v));
      SendsOne(w, s0, s, c, done, v, rs);
      MembersOfRest(vs, done);
      SendsEach(w, s0, After(w, s, es), c, done + {v}, vs[1..], rs);
      AfterConcat(w, s, es, SendEach(s0.live.Keys, c, vs[1..], rs));
    }
  }

  lemma NothingSentYet(s: State, c: nat, rs: map<Variant, Reply>)
    requires ReadyToSend(s, c)
    ensures SentUpTo(s, s, c, {}, rs)
  {
    assert LiveWith(s.live, RowsOf(s, c), {}, rs) == s.live;
    assert HeardOf(s.live, RowsOf(s, c), {}, rs) == map[];
    assert s.camps == s.camps[c := s.camps[c]];
  }

  function AnsweredRun(live: set<Variant>, c: nat, vs: seq<Variant>, rs: map<Variant, Reply>): seq<Event> {
    SendEach(live, c, vs, rs) + Closing(c, vs)
  }

  /**
   * From its plan to its close, whatever the store answers: the rows that landed show their price and no
   * other does; each is recorded as it was heard; and the campaign ends as its kind does exactly when every
   * row was read back or its variant is gone, and Partial, owing the rest, when not.
   */
  lemma RunsAsAnswered(w: World, s: State, c: nat, rs: map<Variant, Reply>)
    requires Shaped(w, s) && ReadyToSend(s, c)
    ensures var rows, es := RowsOf(s, c), AnsweredRun(s.live.Keys, c, Listed(RowsOf(s, c).Keys), rs);
            Runs(w, s, es) &&
            var a := After(w, s, es);
            && a.live == LiveWith(s.live, rows, rows.Keys, rs) && a.ops == s.ops
            && Ended(s, a, c, HeardOf(s.live, rows, rows.Keys, rs))
  {
    var rows, vs := RowsOf(s, c), Listed(RowsOf(s, c).Keys);
    assert Members(vs) == rows.Keys && {} + Members(vs) == rows.Keys;
    NothingSentYet(s, c, rs);
    SendsEach(w, s, s, c, {}, vs, rs);
    var s1 := After(w, s, SendEach(s.live.Keys, c, vs, rs));
    AllIsHeard(s, s1, c, rs);
    RecordsAndCloses(w, s1, c);
    AfterConcat(w, s, SendEach(s.live.Keys, c, vs, rs), Closing(c, vs));
    EndedFromThere(s, s1, After(w, s1, Closing(c, vs)), c, HeardOf(s.live, rows, rows.Keys, rs));
  }

  lemma AllIsHeard(s0: State, s: State, c: nat, rs: map<Variant, Reply>)
    requires ReadyToSend(s0, c) && SentUpTo(s0, s, c, RowsOf(s0, c).Keys, rs)
    ensures AllHeard(s, c) && SameBefore(s0, s, c)
  {
    assert RowsOf(s0, c).Keys == {} ==> RowsOf(s0, c) == map[];
  }

  /** The same campaigns, ledger and mirror, but for what `c`'s process has heard and which rows are marked as sent. */
  ghost predicate SameBefore(s0: State, s: State, c: nat) {
    && c < |s0.camps| == |s.camps| && (forall d: nat :: d < |s.camps| && d != c ==> s.camps[d] == s0.camps[d])
    && s.mirror == s0.mirror && s.camps[c].owed == s0.camps[c].owed
    && s.camps[c].run.Some? && s0.camps[c].run.Some? && s.camps[c].run.value.kind == s0.camps[c].run.value.kind
    && s.camps[c].process.Some? && s0.camps[c].process.Some? && s.camps[c].process.value.kind == s0.camps[c].process.value.kind
    && s.camps[c].run.value.rows.Keys == s0.camps[c].run.value.rows.Keys
    && forall v :: v in s0.camps[c].run.value.rows ==>
         s.camps[c].run.value.rows[v] == s0.camps[c].run.value.rows[v].(status := s.camps[c].run.value.rows[v].status)
  }

  lemma EndedFromThere(s0: State, s: State, a: State, c: nat, heard: map<Variant, Heard>)
    requires SameBefore(s0, s, c) && Ended(s, a, c, heard)
    ensures Ended(s0, a, c, heard)
  {
    SaysTheSame(s0.camps[c].run.value.rows, s.camps[c].run.value.rows, a.camps[c].run.value.rows, s0.mirror, a.mirror, heard);
  }

  lemma SaysTheSame(rows0: map<Variant, Row>, rows: map<Variant, Row>, rows': map<Variant, Row>, mirror: map<Variant, Price>,
                    mirror': map<Variant, Price>, heard: map<Variant, Heard>)
    requires rows0.Keys == rows.Keys == heard.Keys && forall v :: v in rows0 ==> rows[v] == rows0[v].(status := rows[v].status)
    requires LedgerSays(rows, rows', heard) && MirrorIsTold(mirror, mirror', rows, heard)
    ensures LedgerSays(rows0, rows', heard) && MirrorIsTold(mirror, mirror', rows0, heard)
  {
    forall v | v in rows0
      ensures RowSays(rows0[v], rows'[v], heard[v]) && MirrorSays(mirror, mirror', v, rows0[v], heard[v])
    {
      assert RowSays(rows[v], rows'[v], heard[v]) && MirrorSays(mirror, mirror', v, rows[v], heard[v]);
    }
  }

  // ------------------------------------------------------------ killed halfway

  /** What is left of a run killed before it recorded anything: the prices that landed, and a ledger that knows of none. */
  ghost predicate LeftUnrecorded(s: State, a: State, c: nat) {
    && c < |s.camps| && s.camps[c].run.Some?
    && |a.camps| == |s.camps| && (forall d: nat :: d < |s.camps| && d != c ==> a.camps[d] == s.camps[d])
    && a.camps[c] == Camp(Partial, s.camps[c].owed, Some(s.camps[c].run.value.(status := RunPartial)), None)
    && a.ops == s.ops && a.ledgered == s.ledgered
    && (forall v :: v in a.mirror <==> v in s.mirror && v !in s.camps[c].run.value.rows)
    && (forall v :: v in a.mirror ==> a.mirror[v] == s.mirror[v])
  }

  /**
   * A process killed after sending any of its rows, whatever was answered, and the run reclaimed: what landed stays
   * on the storefront, every row is pending still, and the mirror has forgotten all of them, so a resume sends them.
   */
  lemma KilledWhileSending(w: World, s: State, c: nat, vs: seq<Variant>, rs: map<Variant, Reply>)
    requires Shaped(w, s) && ReadyToSend(s, c) && Distinct(vs) && forall v :: v in vs ==> v in RowsOf(s, c)
    ensures Members(vs) <= RowsOf(s, c).Keys
    ensures var es := SendEach(s.live.Keys, c, vs, rs) + [Die(c), Reap(c)];
            Runs(w, s, es) && LeftUnrecorded(s, After(w, s, es), c)
            && After(w, s, es).live == LiveWith(s.live, RowsOf(s, c), Members(vs), rs)
  {
    NothingSentYet(s, c, rs);
    SendsEach(w, s, s, c, {}, vs, rs);
    assert {} + Members(vs) == Members(vs);
    var s1 := After(w, s, SendEach(s.live.Keys, c, vs, rs));
    DiesUnrecorded(w, s, s1, c, Members(vs), rs);
    AfterConcat(w, s, SendEach(s.live.Keys, c, vs, rs), [Die(c), Reap(c)]);
  }

  lemma DiesUnrecorded(w: World, s0: State, s: State, c: nat, done: set<Variant>, rs: map<Variant, Reply>)
    requires Shaped(w, s0) && ReadyToSend(s0, c) && SentUpTo(s0, s, c, done, rs)
    ensures Runs(w, s, [Die(c), Reap(c)]) && After(w, s, [Die(c), Reap(c)]).live == s.live
    ensures LeftUnrecorded(s0, After(w, s, [Die(c), Reap(c)]), c)
  {
    RunsPair(w, s, Die(c), Reap(c));
    var run := s0.camps[c].run.value;
    assert Reclaimed(run).rows == run.rows;
  }

  // ---------------------------------------------------------- in one operation

  /** Shopify reaches a row, and writes it or refuses it. */
  function Reach(i: nat, v: Variant, refused: set<Variant>): Event {
    if v in refused then OpRefuse(i, v) else OpWrite(i, v)
  }

  function ReachEach(i: nat, vs: seq<Variant>, refused: set<Variant>): seq<Event> {
    if vs == [] then [] else [Reach(i, vs[0], refused)] + ReachEach(i, vs[1..], refused)
  }

  /** The storefront once an operation has reached the rows `done`. */
  function LiveAfter(live: map<Variant, Price>, rows: map<Variant, Row>, done: set<Variant>, refused: set<Variant>): map<Variant, Price>
    requires done <= rows.Keys
  {
    map v | v in live :: if v in done && v !in refused then rows[v].intended else live[v]
  }

  /** What a result file that mentions the rows `reported` says of all of them. */
  function HeardFrom(live: map<Variant, Price>, rows: map<Variant, Row>, refused: set<Variant>, reported: set<Variant>)
    : map<Variant, Heard>
  {
    map v | v in rows ::
      if v !in reported then Wrote
      else if v in refused then Rejected
      else if v in live then Confirmed(rows[v].intended)
      else Gone
  }

  /** The operation carrying a run's rows, the rows `done` reached. */
  function Working(s: State, c: nat, done: set<Variant>, refused: set<Variant>): Op
    requires c < |s.camps| && s.camps[c].run.Some?
  {
    var rows := s.camps[c].run.value.rows;
    Op(c, s.camps[c].run.value.no, map v | v in rows :: rows[v].intended, rows.Keys - done,
       set v | v in done && v !in refused && v in s.live, set v | v in done && v !in refused && v !in s.live, false)
  }

  /** The latest operation is `c`'s own, recorded, and Shopify has reached none of it. */
  predicate Operating(s: State, c: nat) {
    && c < |s.camps| && s.camps[c].run.Some? && |s.ops| > 0 && s.camps[c].run.value.op == Some(|s.ops| - 1)
    && s.ops[|s.ops| - 1] == Working(s, c, {}, {})
  }

  /** And its run waits for it. */
  predicate Submitted(s: State, c: nat) {
    && Operating(s, c) && At(s.camps[c], Sending) && LiveRun(s.camps[c])
    && s.camps[c].process.value.op == s.camps[c].run.value.op && s.camps[c].process.value.heard == map[]
    && forall v :: v in s.camps[c].run.value.rows ==> s.camps[c].run.value.rows[v].status == Writing
  }

  lemma Submits(w: World, s: State, c: nat)
    requires Shaped(w, s) && ReadyToSend(s, c) && RowsOf(s, c) != map[] && s.camps[c].run.value.op.None?
    ensures Runs(w, s, [Submit(c), NoteSubmitted(c)])
    ensures var s1 := After(w, s, [Submit(c), NoteSubmitted(c)]);
            Submitted(s1, c) && SameBefore(s, s1, c) && s1.live == s.live && |s1.ops| == |s.ops| + 1 && s1.ops[..|s.ops|] == s.ops
            && s1.camps[c].run.value.no == s.camps[c].run.value.no
  {
    NotesIts(s, c);
    RunsPair(w, s, Submit(c), NoteSubmitted(c));
  }

  lemma NotesIts(s: State, c: nat)
    requires ReadyToSend(s, c) && RowsOf(s, c) != map[] && s.camps[c].run.value.op.None?
    ensures CanSubmit(s, c) && CanNote(DoSubmit(s, c), c)
    ensures var s1 := DoNoteSubmitted(DoSubmit(s, c), c);
            Submitted(s1, c) && SameBefore(s, s1, c) && s1.live == s.live && |s1.ops| == |s.ops| + 1 && s1.ops[..|s.ops|] == s.ops
            && s1.camps[c].run.value.no == s.camps[c].run.value.no
  {
    var s1 := DoNoteSubmitted(DoSubmit(s, c), c);
    var rows, rows1 := RowsOf(s, c), s1.camps[c].run.value.rows;
    assert (map v | v in rows :: rows[v].intended) == map v | v in rows1 :: rows1[v].intended;
    assert s1.ops[|s.ops|] == Working(s1, c, {}, {});
  }

  /** Shopify has reached the rows `done` of the operation, and nothing else has happened. */
  predicate WorkedUpTo(s0: State, s: State, c: nat, done: set<Variant>, refused: set<Variant>)
    requires Operating(s0, c)
  {
    var rows := s0.camps[c].run.value.rows;
    && done <= rows.Keys
    && s == s0.(live := LiveAfter(s0.live, rows, done, refused), accepted := s.accepted,
                ops := s0.ops[|s0.ops| - 1 := Working(s0, c, done, refused)])
  }

  lemma ReachesOne(s0: State, s: State, c: nat, done: set<Variant>, refused: set<Variant>, v: Variant)
    requires Operating(s0, c) && WorkedUpTo(s0, s, c, done, refused) && v in s0.camps[c].run.value.rows && v !in done
    ensures CanOpWrite(s, |s0.ops| - 1, v)
    ensures v !in refused ==> WorkedUpTo(s0, DoOpWrite(s, |s0.ops| - 1, v), c, done + {v}, refused)
    ensures v in refused ==>
              var i := |s0.ops| - 1;
              WorkedUpTo(s0, s.(ops := s.ops[i := s.ops[i].(left := s.ops[i].left - {v})]), c, done + {v}, refused)
  {
    var i, rows := |s0.ops| - 1, s0.camps[c].run.value.rows;
    var before, after := Working(s0, c, done, refused), Working(s0, c, done + {v}, refused);
    assert after.left == before.left - {v};
    if v in refused {
      assert after.wrote == before.wrote && after.gone == before.gone;
      assert LiveAfter(s0.live, rows, done + {v}, refused) == s.live;
    } else {
      assert DoOpWrite(s, i, v).live == LiveAfter(s0.live, rows, done + {v}, refused);
      assert v in s0.live ==> after.wrote == before.wrote + {v} && after.gone == before.gone;
      assert v !in s0.live ==> after.wrote == before.wrote && after.gone == before.gone + {v};
    }
  }

  lemma {:induction false} ReachesEach(w: World, s0: State, s: State, c: nat, done: set<Variant>, refused: set<Variant>, vs: seq<Variant>)
    requires Shaped(w, s0) && Operating(s0, c) && WorkedUpTo(s0, s, c, done, refused)
    requires Distinct(vs) && forall v :: v in vs ==> v in s0.camps[c].run.value.rows && v !in done
    ensures Runs(w, s, ReachEach(|s0.ops| - 1, vs, refused))
    ensures WorkedUpTo(s0, After(w, s, ReachEach(|s0.ops| - 1, vs, refused)), c, done + Members(vs), refused)
    decreases |vs|
  {
    if vs == [] {
      assert done + Members(vs) == done;
    } else {
      var i, v := |s0.ops| - 1, vs[0];
      ReachesOne(s0, s, c, done, refused, v);
      RunsOne(w, s, Reach(i, v, refused));
      MembersOfRest(vs, done);
      ReachesEach(w, s0, Step(w, s, Reach(i, v, refused)), c, done + {v}, refused, vs[1..]);
      AfterConcat(w, s, [Reach(i, v, refused)], ReachEach(i, vs[1..], refused));
    }
  }

  /** The operation ends, its result file mentions some of the rows it reached, and the run reads it. */
  lemma Collects(w: World, s0: State, s: State, c: nat, done: set<Variant>, refused: set<Variant>, reported: set<Variant>)
    requires Shaped(w, s0) && Submitted(s0, c) && WorkedUpTo(s0, s, c, done, refused) && reported <= done
    ensures var i, es := |s0.ops| - 1, [OpEnd(|s0.ops| - 1), Collect(c, reported)];
            Runs(w, s, es) &&
            var s1 := After(w, s, es);
            && AllHeard(s1, c) && SameBefore(s0, s1, c) && s1.live == s.live && |s1.ops| == |s0.ops| && s1.ops[..i] == s0.ops[..i]
            && s1.camps[c].process.value.heard == HeardFrom(s0.live, s0.camps[c].run.value.rows, refused, reported)
            && s1.ops[i] == Working(s0, c, done, refused).(done := true)
  {
    var i, rows := |s0.ops| - 1, s0.camps[c].run.value.rows;
    RunsPair(w, s, OpEnd(i), Collect(c, reported));
    var s1 := DoCollect(Step(w, s, OpEnd(i)), c, reported);
    assert s1.camps[c].process.value.heard == HeardFrom(s0.live, rows, refused, reported);
    assert rows != map[] || rows.Keys == {};
  }

  ghost function BulkRun(c: nat, i: nat, vs: seq<Variant>, refused: set<Variant>, reported: set<Variant>, rows: set<Variant>): seq<Event> {
    [Submit(c), NoteSubmitted(c)] + (ReachEach(i, vs, refused) + ([OpEnd(i), Collect(c, reported)] + Closing(c, Listed(rows))))
  }

  /**
   * The same of a bulk operation, however far Shopify gets, whatever it refuses, and whichever of the rows
   * it reached its result file mentions: a row not mentioned is never taken for written.
   */
  lemma RunsAsOperated(w: World, s: State, c: nat, vs: seq<Variant>, refused: set<Variant>, reported: set<Variant>)
    requires Shaped(w, s) && ReadyToSend(s, c) && RowsOf(s, c) != map[] && s.camps[c].run.value.op.None?
    requires Distinct(vs) && (forall v :: v in vs ==> v in RowsOf(s, c)) && reported <= Members(vs)
    ensures var rows, es := RowsOf(s, c), BulkRun(c, |s.ops|, vs, refused, reported, RowsOf(s, c).Keys);
            Runs(w, s, es) &&
            var a := After(w, s, es);
            && a.live == LiveAfter(s.live, rows, Members(vs), refused)
            && Ended(s, a, c, HeardFrom(s.live, rows, refused, reported))
            && |a.ops| == |s.ops| + 1 && a.ops[..|s.ops|] == s.ops && a.ops[|s.ops|].done
  {
    var i := |s.ops|;
    Submits(w, s, c);
    var s1 := After(w, s, [Submit(c), NoteSubmitted(c)]);
    NoneReached(s1, c, refused);
    ReachesEach(w, s1, s1, c, {}, refused, vs);
    var s2 := After(w, s1, ReachEach(i, vs, refused));
    assert {} + Members(vs) == Members(vs);
    Collects(w, s1, s2, c, Members(vs), refused, reported);
    var s3 := After(w, s2, [OpEnd(i), Collect(c, reported)]);
    RecordsAndCloses(w, s3, c);
    BulkRunRuns(w, s, s1, s2, s3, c, vs, refused, reported);
    SameThrough(s, s1, s3, c);
    SameHeard(s, s1, c, refused, reported);
    EndedFromThere(s, s3, After(w, s3, Closing(c, Listed(RowsOf(s, c).Keys))), c, HeardFrom(s.live, RowsOf(s, c), refused, reported));
  }

  lemma NoneReached(s: State, c: nat, refused: set<Variant>)
    requires Operating(s, c)
    ensures WorkedUpTo(s, s, c, {}, refused)
  {
    assert LiveAfter(s.live, s.camps[c].run.value.rows, {}, refused) == s.live;
    assert Working(s, c, {}, refused) == Working(s, c, {}, {});
    assert s.ops[|s.ops| - 1 := Working(s, c, {}, refused)] == s.ops;
  }

  lemma BulkRunRuns(w: World, s: State, s1: State, s2: State, s3: State, c: nat, vs: seq<Variant>, refused: set<Variant>,
                    reported: set<Variant>)
    requires ReadyToSend(s, c) && s3.camps != [] && c < |s3.camps| && s3.camps[c].run.Some?
    requires s3.camps[c].run.value.rows.Keys == RowsOf(s, c).Keys
    requires Runs(w, s, [Submit(c), NoteSubmitted(c)]) && s1 == After(w, s, [Submit(c), NoteSubmitted(c)])
    requires Runs(w, s1, ReachEach(|s.ops|, vs, refused)) && s2 == After(w, s1, ReachEach(|s.ops|, vs, refused))
    requires Runs(w, s2, [OpEnd(|s.ops|), Collect(c, reported)]) && s3 == After(w, s2, [OpEnd(|s.ops|), Collect(c, reported)])
    requires Runs(w, s3, Closing(c, Listed(RowsOf(s, c).Keys)))
    ensures var es := BulkRun(c, |s.ops|, vs, refused, reported, RowsOf(s, c).Keys);
            Runs(w, s, es) && After(w, s, es) == After(w, s3, Closing(c, Listed(RowsOf(s, c).Keys)))
  {
    var i, closing := |s.ops|, Closing(c, Listed(RowsOf(s, c).Keys));
    AfterConcat(w, s2, [OpEnd(i), Collect(c, reported)], closing);
    AfterConcat(w, s1, ReachEach(i, vs, refused), [OpEnd(i), Collect(c, reported)] + closing);
    AfterConcat(w, s, [Submit(c), NoteSubmitted(c)], ReachEach(i, vs, refused) + ([OpEnd(i), Collect(c, reported)] + closing));
  }

  lemma SameThrough(s: State, s1: State, s3: State, c: nat)
    requires SameBefore(s, s1, c) && SameBefore(s1, s3, c)
    ensures SameBefore(s, s3, c)
  {
  }

  lemma SameHeard(s: State, s1: State, c: nat, refused: set<Variant>, reported: set<Variant>)
    requires ReadyToSend(s, c) && SameBefore(s, s1, c)
    ensures HeardFrom(s.live, s1.camps[c].run.value.rows, refused, reported) == HeardFrom(s.live, RowsOf(s, c), refused, reported)
    ensures forall done: set<Variant> :: done <= RowsOf(s, c).Keys ==>
              LiveAfter(s.live, s1.camps[c].run.value.rows, done, refused) == LiveAfter(s.live, RowsOf(s, c), done, refused)
  {
  }

  // ------------------------------------------------- an operation nobody waits for

  /** What the ledger says of a row settled from a result file after its run died: only a refusal counts an attempt. */
  predicate SettledSays(row: Row, row': Row, h: Heard) {
    && row'.intended == row.intended && row'.clamped == row.clamped
    && row'.attempt == row.attempt + (if h.Rejected? then 1 else 0)
    && row'.observed == (if h.Confirmed? then Some(h.observed) else row.observed)
    && match h
       case Confirmed(_) => row'.status == if row.clamped then Clamped else Verified
       case Gone => row'.status == Skipped
       case Rejected => row'.status == Failed
       case Wrote => row'.status == Applied
  }

  /** The mirror forgot the rows when the run was reclaimed, and learns again those read back if the settling gets that far. */
  ghost predicate MirrorRelearns(mirror: map<Variant, Price>, mirror': map<Variant, Price>, rows: map<Variant, Row>,
                                 heard: map<Variant, Heard>, mirrored: bool)
    requires rows.Keys == heard.Keys
  {
    && (forall v :: v in rows ==> (v in mirror' <==> mirrored && heard[v].Confirmed?) && (v in mirror' ==> mirror'[v] == rows[v].intended))
    && (forall v :: v !in rows ==> (v in mirror' <==> v in mirror) && (v in mirror ==> mirror'[v] == mirror[v]))
  }

  /** What is left of a run that died waiting: Partial, each row as the result file says, owing those that are not final. */
  ghost predicate SettledAfterDeath(s: State, a: State, c: nat, heard: map<Variant, Heard>, mirrored: bool) {
    && c < |s.camps| && s.camps[c].run.Some? && heard.Keys == s.camps[c].run.value.rows.Keys
    && |a.camps| == |s.camps| && (forall d: nat :: d < |s.camps| && d != c ==> a.camps[d] == s.camps[d])
    && a.camps[c].process.None? && a.camps[c].run.Some? && a.camps[c].status == Partial && a.camps[c].run.value.status == RunPartial
    && a.camps[c].run.value.kind == s.camps[c].run.value.kind
    && a.camps[c].run.value.rows.Keys == heard.Keys
    && (forall v :: v in heard ==> SettledSays(s.camps[c].run.value.rows[v], a.camps[c].run.value.rows[v], heard[v]))
    && a.camps[c].owed == StillOwed(s.camps[c].owed, heard, heard.Keys)
    && MirrorRelearns(s.mirror, a.mirror, s.camps[c].run.value.rows, heard, mirrored)
  }

  function KilledRun(c: nat, i: nat, vs: seq<Variant>, refused: set<Variant>, reported: set<Variant>, mirrored: bool): seq<Event> {
    [Submit(c), NoteSubmitted(c)] + ([Die(c), Reap(c)] + (ReachEach(i, vs, refused) + [OpEnd(i), SettleOp(c, reported, mirrored)]))
  }

  lemma Reaps(w: World, s: State, c: nat)
    requires Shaped(w, s) && Submitted(s, c)
    ensures Runs(w, s, [Die(c), Reap(c)])
    ensures var s1 := After(w, s, [Die(c), Reap(c)]);
            && Operating(s1, c) && s1.live == s.live && s1.ops == s.ops && |s1.camps| == |s.camps|
            && (forall d: nat :: d < |s.camps| && d != c ==> s1.camps[d] == s.camps[d])
            && s1.camps[c] == Camp(Partial, s.camps[c].owed, Some(s.camps[c].run.value.(status := RunPartial)), None)
            && (forall v :: v in s1.mirror <==> v in s.mirror && v !in s.camps[c].run.value.rows)
            && (forall v :: v in s1.mirror ==> s1.mirror[v] == s.mirror[v])
  {
    RunsPair(w, s, Die(c), Reap(c));
    var run := s.camps[c].run.value;
    assert Reclaimed(run).rows == run.rows;
    var s1 := After(w, s, [Die(c), Reap(c)]);
    assert Working(s1, c, {}, {}) == Working(s, c, {}, {});
  }

  /** Reclaimed, its rows marked as sent and unknown to the mirror. */
  predicate LeftWaiting(s: State, c: nat) {
    && Operating(s, c) && s.camps[c].process.None? && s.camps[c].status == Partial && s.camps[c].run.value.status == RunPartial
    && s.camps[c].run.value.rows != map[]
    && forall v :: v in s.camps[c].run.value.rows ==> s.camps[c].run.value.rows[v].status == Writing && v !in s.mirror
  }

  lemma SettlesDead(w: World, s0: State, s: State, c: nat, done: set<Variant>, refused: set<Variant>, reported: set<Variant>,
                    mirrored: bool)
    requires Shaped(w, s0) && LeftWaiting(s0, c) && WorkedUpTo(s0, s, c, done, refused) && reported <= done
    ensures var es := [OpEnd(|s0.ops| - 1), SettleOp(c, reported, mirrored)];
            Runs(w, s, es) && After(w, s, es).live == s.live
            && SettledAfterDeath(s0, After(w, s, es), c, HeardFrom(s0.live, s0.camps[c].run.value.rows, refused, reported), mirrored)
  {
    var i := |s0.ops| - 1;
    var ended := s.(ops := s.ops[i := s.ops[i].(done := true)]);
    assert OverUpTo(s0, ended, c, done, refused);
    MaySettleDead(s0, ended, c, done, refused, reported);
    RunsPair(w, s, OpEnd(i), SettleOp(c, reported, mirrored));
    SettlesAsReported(s0, ended, c, done, refused, reported, mirrored);
  }

  /** The operation over, the rows `done` reached. */
  predicate OverUpTo(s0: State, s: State, c: nat, done: set<Variant>, refused: set<Variant>)
    requires Operating(s0, c)
  {
    && done <= s0.camps[c].run.value.rows.Keys
    && s == s0.(live := s.live, accepted := s.accepted, ops := s0.ops[|s0.ops| - 1 := Working(s0, c, done, refused).(done := true)])
  }

  lemma MaySettleDead(s0: State, s: State, c: nat, done: set<Variant>, refused: set<Variant>, reported: set<Variant>)
    requires LeftWaiting(s0, c) && OverUpTo(s0, s, c, done, refused) && reported <= done
    ensures CanSettleOp(s, c, reported)
  {
    assert s.camps[c].run.value.rows.Keys != {};
    assert Sent(s.camps[c]);
  }

  lemma SettlesAsReported(s0: State, s: State, c: nat, done: set<Variant>, refused: set<Variant>, reported: set<Variant>, mirrored: bool)
    requires LeftWaiting(s0, c) && OverUpTo(s0, s, c, done, refused) && reported <= done && CanSettleOp(s, c, reported)
    ensures SettledAfterDeath(s0, DoSettleOp(s, c, reported, mirrored), c,
                              HeardFrom(s0.live, s0.camps[c].run.value.rows, refused, reported), mirrored)
  {
    var rows, op := s0.camps[c].run.value.rows, s.ops[|s0.ops| - 1];
    var heard, rows' := HeardFrom(s0.live, rows, refused, reported), SettledRows(rows, op, reported);
    SettledTable(rows, op, s0, c, done, refused, reported);
    MirrorLearns(s0.mirror, rows, rows', heard);
    StillOwedAfter(s0.camps[c].owed, rows, rows', heard);
  }

  lemma StillOwedAfter(owed: set<Variant>, rows: map<Variant, Row>, rows': map<Variant, Row>, heard: map<Variant, Heard>)
    requires rows.Keys == rows'.Keys == heard.Keys
    requires forall v :: v in rows ==> rows[v].status == Writing && SettledSays(rows[v], rows'[v], heard[v])
    ensures StillOwed(owed, heard, heard.Keys)
         == set v | v in owed && !(v in rows' && rows[v].status == Writing && Settled(rows'[v].status))
  {
    forall v | v in rows
      ensures Settled(rows'[v].status) <==> Final(heard[v])
    {
      assert SettledSays(rows[v], rows'[v], heard[v]);
    }
  }

  lemma SettledTable(rows: map<Variant, Row>, op: Op, s0: State, c: nat, done: set<Variant>, refused: set<Variant>, reported: set<Variant>)
    requires c < |s0.camps| && s0.camps[c].run.Some? && rows == s0.camps[c].run.value.rows
    requires done <= rows.Keys && reported <= done && op == Working(s0, c, done, refused).(done := true)
    requires forall v :: v in rows ==> rows[v].status == Writing
    ensures forall v :: v in rows ==>
              SettledSays(rows[v], SettledRows(rows, op, reported)[v], HeardFrom(s0.live, rows, refused, reported)[v])
  {
  }

  lemma MirrorLearns(mirror: map<Variant, Price>, rows: map<Variant, Row>, rows': map<Variant, Row>, heard: map<Variant, Heard>)
    requires rows.Keys == rows'.Keys == heard.Keys && forall v :: v in rows ==> SettledSays(rows[v], rows'[v], heard[v]) && v !in mirror
    ensures MirrorRelearns(mirror, Mirrored(mirror, rows'), rows, heard, true) && MirrorRelearns(mirror, mirror, rows, heard, false)
  {
    forall v | v in rows
      ensures v in Mirrored(mirror, rows') <==> heard[v].Confirmed?
    {
      assert SettledSays(rows[v], rows'[v], heard[v]);
    }
  }

  /**
   * A process killed while Shopify works through its operation, and the run reclaimed: the operation is settled
   * from its result file once it is over, however far Shopify got, and the campaign is left Partial, owing
   * exactly the rows the file does not call written or gone.
   */
  lemma SettledOnceOver(w: World, s: State, c: nat, vs: seq<Variant>, refused: set<Variant>, reported: set<Variant>, mirrored: bool)
    requires Shaped(w, s) && ReadyToSend(s, c) && RowsOf(s, c) != map[] && s.camps[c].run.value.op.None?
    requires Distinct(vs) && (forall v :: v in vs ==> v in RowsOf(s, c)) && reported <= Members(vs)
    ensures var rows, es := RowsOf(s, c), KilledRun(c, |s.ops|, vs, refused, reported, mirrored);
            Runs(w, s, es) &&
            var a := After(w, s, es);
            && a.live == LiveAfter(s.live, rows, Members(vs), refused)
            && SettledAfterDeath(s, a, c, HeardFrom(s.live, rows, refused, reported), mirrored)
  {
    var i := |s.ops|;
    Submits(w, s, c);
    var s1 := After(w, s, [Submit(c), NoteSubmitted(c)]);
    Reaps(w, s1, c);
    var s2 := After(w, s1, [Die(c), Reap(c)]);
    NoneReached(s2, c, refused);
    ReachesEach(w, s2, s2, c, {}, refused, vs);
    var s3 := After(w, s2, ReachEach(i, vs, refused));
    assert {} + Members(vs) == Members(vs);
    SettlesDead(w, s2, s3, c, Members(vs), refused, reported, mirrored);
    var last := [OpEnd(i), SettleOp(c, reported, mirrored)];
    AfterConcat(w, s2, ReachEach(i, vs, refused), last);
    AfterConcat(w, s1, [Die(c), Reap(c)], ReachEach(i, vs, refused) + last);
    AfterConcat(w, s, [Submit(c), NoteSubmitted(c)], [Die(c), Reap(c)] + (ReachEach(i, vs, refused) + last));
    SameHeard(s, s1, c, refused, reported);
    SettledFromThere(s, s1, s2, After(w, s3, last), c, HeardFrom(s.live, RowsOf(s, c), refused, reported), mirrored);
  }

  lemma SettledFromThere(s: State, s1: State, s2: State, a: State, c: nat, heard: map<Variant, Heard>, mirrored: bool)
    requires ReadyToSend(s, c) && SameBefore(s, s1, c) && heard.Keys == RowsOf(s, c).Keys
    requires |s2.camps| == |s1.camps| && forall d: nat :: d < |s1.camps| && d != c ==> s2.camps[d] == s1.camps[d]
    requires s2.camps[c].run.Some? && s2.camps[c].run.value.rows == s1.camps[c].run.value.rows
    requires s2.camps[c].run.value.kind == s1.camps[c].run.value.kind && s2.camps[c].owed == s1.camps[c].owed
    requires forall v :: v in s2.mirror <==> v in s1.mirror && v !in s1.camps[c].run.value.rows
    requires forall v :: v in s2.mirror ==> s2.mirror[v] == s1.mirror[v]
    requires SettledAfterDeath(s2, a, c, heard, mirrored)
    ensures SettledAfterDeath(s, a, c, heard, mirrored)
  {
    var rows, rows1, rows' := RowsOf(s, c), s1.camps[c].run.value.rows, a.camps[c].run.value.rows;
    forall v | v in heard
      ensures SettledSays(rows[v], rows'[v], heard[v])
    {
      assert SettledSays(rows1[v], rows'[v], heard[v]);
    }
  }
}
