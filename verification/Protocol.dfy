/**
 * The campaign protocol: how a run claims its campaign, plans, writes its ledger, sends prices one
 * by one or in a bulk operation, reads them back, records, settles the mirror and reports; and
 * what is left behind when it throws, is killed, or is reclaimed. One event is one commit to the
 * database or one answer from the store, so a kill can come between any two.
 */
module Protocol {
  import opened Wrappers
  import opened Ranking
  import opened Lifecycle
  import opened Ledger

  /** What a campaign says about one variant when it controls it. */
  datatype Offer = Priced(price: Price, clamped: bool) | Skips | Blocks

  datatype Def = Def(rank: Rank, scope: set<Variant>, offer: map<Variant, Offer>)

  datatype World = World(baseline: map<Variant, Price>, defs: seq<Def>)

  // ------------------------------------------------------------ resolution

  /** Campaign `c`, among the pricing ones `p`, covers `v`. */
  predicate Covers(w: World, p: set<nat>, c: nat, v: Variant) {
    c < |w.defs| && c in p && v in w.defs[c].scope
  }

  /** The winner among the first `n` campaigns. */
  function Winner(w: World, p: set<nat>, v: Variant, n: nat): (r: Option<nat>)
    requires n <= |w.defs|
    ensures r.Some? ==> r.value < n && Covers(w, p, r.value, v)
    ensures r.None? ==> forall c: nat :: c < n ==> !Covers(w, p, c, v)
  {
    if n == 0 then None
    else
      var best := Winner(w, p, v, n - 1);
      if !Covers(w, p, n - 1, v) then best
      else if best.None? || Compare(w.defs[n - 1].rank, w.defs[best.value].rank) > 0 then Some(n - 1)
      else best
  }

  /** What the storefront should show for `v` while exactly the campaigns `p` are pricing. */
  function Target(w: World, p: set<nat>, v: Variant): Offer {
    if v !in w.baseline then Skips
    else
      var winner := Winner(w, p, v, |w.defs|);
      if winner.None? then Priced(w.baseline[v], false)
      else if v in w.defs[winner.value].offer then w.defs[winner.value].offer[v]
      else Skips
  }

  // ----------------------------------------------------------------- state

  datatype RunStatus = Executing | RunCompleted | RunPartial | RunFailed

  /** A campaign's latest whole run, its ledger rows, and the bulk operation recorded for it. */
  datatype Run = Run(no: nat, kind: Kind, status: RunStatus, rows: map<Variant, Row>, op: Option<nat>)

  /** What a live run has heard about a row it sent. */
  datatype Heard = Wrote | Confirmed(observed: Price) | Rejected | Gone

  datatype Phase = Claimed | Opened | Sending | Recording | MirrorSettled | Reported

  /** Where a claim was taken from: what giving it back restores. */
  datatype Before = Before(status: CampaignState, prices: bool, owed: set<Variant>)

  /** The process behind a run, lost whole when it dies. */
  datatype Process = Process(kind: Kind, resume: bool, phase: Phase, before: Before,
                             heard: map<Variant, Heard>, op: Option<nat>)

  /**
   * `owed` is bookkeeping: the variants whose price this campaign has decided and not yet settled.
   * The engine keeps it as unsettled ledger rows, and as a claim not yet planned.
   */
  datatype Camp = Camp(status: CampaignState, owed: set<Variant>, run: Option<Run>, process: Option<Process>)

  /** A bulk mutation Shopify accepted: rows not reached yet, written, and found deleted. */
  datatype Op = Op(owner: nat, run: nat, sent: map<Variant, Price>,
                   left: set<Variant>, wrote: set<Variant>, gone: set<Variant>, done: bool)

  /** One price of one run: a ledger row, or a write the store accepted. */
  datatype Entry = Entry(camp: nat, run: nat, variant: Variant, price: Price)

  /** `mirror` holds the live prices the app believes; a missing one is unknown. */
  datatype State = State(live: map<Variant, Price>, mirror: map<Variant, Price>,
                         camps: seq<Camp>, ops: seq<Op>, runs: nat,
                         ledgered: set<Entry>, accepted: set<Entry>)

  /**
   * A pricing state, unless the latest whole run is a revert: that campaign is being ended and
   * wins nothing from anyone.
   */
  predicate Prices(k: Camp) {
    PricingState(k.status) && !(k.run.Some? && k.run.value.kind == Revert)
  }

  function Pricing(s: State): set<nat> {
    set c: nat | c < |s.camps| && Prices(s.camps[c])
  }

  function With(p: set<nat>, c: nat, member: bool): set<nat> {
    if member then p + {c} else p - {c}
  }

  predicate Outstanding(r: Row) {
    !Settled(r.status)
  }

  predicate LiveRun(k: Camp) {
    k.run.Some? && k.run.value.status == Executing
  }

  /** Some row is inside a bulk operation whose result has not been read. */
  predicate Sent(k: Camp) {
    k.run.Some? && exists v :: v in k.run.value.rows && k.run.value.rows[v].status == Writing
  }

  predicate At(k: Camp, phase: Phase) {
    k.process.Some? && k.process.value.phase == phase
  }

  // ------------------------------------------------------------------ plan

  /** The plan writes `v`: it is priced, and the mirror does not already show that price. */
  predicate Wanted(w: World, p: set<nat>, mirror: map<Variant, Price>, v: Variant) {
    Target(w, p, v).Priced? && (v !in mirror || mirror[v] != Target(w, p, v).price)
  }

  /** The ledger a resume of `kind` continues: the latest run's, when it went the same way. */
  function Prior(k: Camp, kind: Kind): map<Variant, Row> {
    if k.run.Some? && k.run.value.kind == kind then k.run.value.rows else map[]
  }

  /** The rows a run plans. Only a resumed apply filters by the ledger it continues. */
  function Plan(w: World, s: State, c: nat): (rows: map<Variant, Row>)
    requires c < |s.camps| && c < |w.defs| && s.camps[c].process.Some?
  {
    var k := s.camps[c];
    var kind := k.process.value.kind;
    var p := With(Pricing(s), c, kind == Apply);
    var prior := if k.process.value.resume && kind == Apply then Prior(k, Apply) else map[];
    map v | v in w.defs[c].scope && Wanted(w, p, s.mirror, v) && ResumeSends(prior, v)
      :: Row(Target(w, p, v).price, Target(w, p, v).clamped, Pending, None, 0)
  }

  /** A blocking policy stops the whole run. */
  predicate Stopped(w: World, s: State, c: nat)
    requires c < |s.camps| && c < |w.defs| && s.camps[c].process.Some?
  {
    exists v :: v in w.defs[c].scope
                && Target(w, With(Pricing(s), c, s.camps[c].process.value.kind == Apply), v).Blocks?
  }

  // ------------------------------------------------------- ledger and mirror

  function StatusOf(h: Heard, clamped: bool): RowState {
    match h
    case Confirmed(_) => if clamped then Clamped else Verified
    case Rejected => Failed
    case Gone => Skipped
    case Wrote => Applied
  }

  /** A row as the run's results leave it. A failure or a row not read back counts an attempt. */
  function Recorded(r: Row, h: Heard): Row {
    r.(status := StatusOf(h, r.clamped),
       observed := if h.Confirmed? then Some(h.observed) else r.observed,
       attempt := if h.Confirmed? then r.attempt else r.attempt + 1)
  }

  /** Rows a dead run was writing go back to pending, unless a recorded bulk operation holds them. */
  function Reclaimed(run: Run): Run {
    run.(status := RunPartial,
         rows := map v | v in run.rows ::
           if run.rows[v].status == Writing && run.op.None? then run.rows[v].(status := Pending) else run.rows[v])
  }

  predicate Unknown(s: RowState) {
    s == Pending || s == Writing || s == Applied || s == Failed
  }

  /** The mirror from a run's ledger: landed rows show their price, outstanding ones nothing. */
  function Mirrored(mirror: map<Variant, Price>, rows: map<Variant, Row>): map<Variant, Price> {
    map v | v in mirror.Keys + rows.Keys
            && (if v in rows then !Unknown(rows[v].status) && (Landed(rows[v].status) || v in mirror) else true)
      :: if v in rows && Landed(rows[v].status) then rows[v].intended else mirror[v]
  }

  function Entries(c: nat, run: nat, rows: map<Variant, Row>): set<Entry> {
    set v | v in rows :: Entry(c, run, v, rows[v].intended)
  }

  // ---------------------------------------------------------------- events

  datatype Event =
    | Claim(c: nat, kind: Kind, resume: bool)
    | Open(c: nat, ledgered: set<Variant>)
    | Write(c: nat, v: Variant)
    | Refuse(c: nat, v: Variant, landed: bool)
    | ReadBack(c: nat, v: Variant)
    | Submit(c: nat)
    | NoteSubmitted(c: nat)
    | Collect(c: nat, reported: set<Variant>)
    | RecordRow(c: nat, v: Variant)
    | SettleMirror(c: nat)
    | FinishRun(c: nat)
    | Close(c: nat)
    | Release(c: nat)
    | StopWriting(c: nat)
    | LoseClose(c: nat)
    | Die(c: nat)
    | Reap(c: nat)
    | SettleOp(c: nat, reported: set<Variant>, mirrored: bool)
    | OpWrite(i: nat, v: Variant)
    | OpRefuse(i: nat, v: Variant)
    | OpEnd(i: nat)
    | Delete(v: Variant)

  predicate Shaped(w: World, s: State) {
    |s.camps| == |w.defs|
  }

  /** No live whole run, no sent rows waiting for Shopify, and a legal move. */
  predicate CanClaim(s: State, c: nat, kind: Kind) {
    c < |s.camps| && s.camps[c].process.None? && !LiveRun(s.camps[c]) && !Sent(s.camps[c])
    && CanTransition(s.camps[c].status, ClaimState(kind))
  }

  predicate CanOpen(w: World, s: State, c: nat) {
    Shaped(w, s) && c < |s.camps| && At(s.camps[c], Claimed) && !Stopped(w, s, c)
  }

  /** The run is sending rows one by one and has not sent this one. */
  predicate CanSend(s: State, c: nat, v: Variant) {
    c < |s.camps| && (At(s.camps[c], Opened) || At(s.camps[c], Sending)) && LiveRun(s.camps[c])
    && s.camps[c].process.value.op.None? && v in s.camps[c].run.value.rows
    && v !in s.camps[c].process.value.heard
  }

  predicate CanReadBack(s: State, c: nat, v: Variant) {
    c < |s.camps| && At(s.camps[c], Sending) && LiveRun(s.camps[c])
    && s.camps[c].process.value.op.None? && v in s.camps[c].run.value.rows
    && v in s.camps[c].process.value.heard && s.camps[c].process.value.heard[v] == Wrote
  }

  predicate CanSubmit(s: State, c: nat) {
    c < |s.camps| && At(s.camps[c], Opened) && LiveRun(s.camps[c]) && s.camps[c].run.value.rows != map[]
  }

  predicate CanNote(s: State, c: nat) {
    c < |s.camps| && At(s.camps[c], Sending) && LiveRun(s.camps[c])
    && s.camps[c].process.value.op.Some? && s.camps[c].run.value.op.None?
  }

  predicate CanCollect(s: State, c: nat, reported: set<Variant>) {
    c < |s.camps| && At(s.camps[c], Sending) && LiveRun(s.camps[c])
    && s.camps[c].process.value.op.Some? && s.camps[c].run.value.op == s.camps[c].process.value.op
    && s.camps[c].process.value.heard == map[]
    && Reports(s, s.camps[c].process.value.op.value, reported)
  }

  predicate CanRecord(s: State, c: nat, v: Variant) {
    c < |s.camps| && (At(s.camps[c], Sending) || At(s.camps[c], Recording)) && LiveRun(s.camps[c])
    && v in s.camps[c].process.value.heard && v in s.camps[c].run.value.rows
    && Waiting(s.camps[c].run.value.rows[v].status)
  }

  /** Everything heard is recorded, and a bulk operation's rows have all been heard of. */
  predicate CanSettleMirror(s: State, c: nat) {
    c < |s.camps| && (At(s.camps[c], Opened) || At(s.camps[c], Sending) || At(s.camps[c], Recording))
    && LiveRun(s.camps[c]) && AllRecorded(s.camps[c])
    && (s.camps[c].process.value.op.Some?
        ==> s.camps[c].process.value.heard.Keys == s.camps[c].run.value.rows.Keys)
  }

  predicate AllRecorded(k: Camp) {
    k.run.Some? && k.process.Some?
    && forall v :: v in k.process.value.heard && v in k.run.value.rows ==> !Waiting(k.run.value.rows[v].status)
  }

  predicate CanFinish(s: State, c: nat) {
    c < |s.camps| && At(s.camps[c], MirrorSettled) && LiveRun(s.camps[c])
  }

  predicate CanClose(s: State, c: nat) {
    c < |s.camps| && At(s.camps[c], Reported) && s.camps[c].run.Some?
  }

  predicate CanRelease(w: World, s: State, c: nat) {
    Shaped(w, s) && c < |s.camps| && (At(s.camps[c], Claimed) || At(s.camps[c], Opened))
  }

  /** A run that has a ledger and has not said how it ended. */
  predicate CanStop(s: State, c: nat) {
    c < |s.camps| && LiveRun(s.camps[c]) && (s.camps[c].process.Some? ==> !At(s.camps[c], Claimed))
  }

  /** The campaign's last bulk operation is over and its rows are still marked as sent. */
  predicate CanSettleOp(s: State, c: nat, reported: set<Variant>) {
    c < |s.camps| && s.camps[c].process.None? && !LiveRun(s.camps[c]) && Sent(s.camps[c])
    && s.camps[c].run.value.op.Some? && Reports(s, s.camps[c].run.value.op.value, reported)
  }

  predicate CanOpWrite(s: State, i: nat, v: Variant) {
    i < |s.ops| && !s.ops[i].done && v in s.ops[i].left && v in s.ops[i].sent
  }

  /** The code lets `e` happen in `s`. */
  predicate Enabled(w: World, s: State, e: Event) {
    Shaped(w, s) &&
    match e
    case Claim(c, kind, _) => CanClaim(s, c, kind)
    case Open(c, _) => CanOpen(w, s, c)
    case Write(c, v) => CanSend(s, c, v)
    case Refuse(c, v, _) => CanSend(s, c, v)
    case ReadBack(c, v) => CanReadBack(s, c, v)
    case Submit(c) => CanSubmit(s, c)
    case NoteSubmitted(c) => CanNote(s, c)
    case Collect(c, reported) => CanCollect(s, c, reported)
    case RecordRow(c, v) => CanRecord(s, c, v)
    case SettleMirror(c) => CanSettleMirror(s, c)
    case FinishRun(c) => CanFinish(s, c)
    case Close(c) => CanClose(s, c)
    case Release(c) => CanRelease(w, s, c)
    case StopWriting(c) => CanStop(s, c) && s.camps[c].process.Some?
    case LoseClose(c) => CanClose(s, c)
    case Die(c) => c < |s.camps| && s.camps[c].process.Some?
    case Reap(c) => CanStop(s, c) && s.camps[c].process.None?
    case SettleOp(c, reported, _) => CanSettleOp(s, c, reported)
    case OpWrite(i, v) => CanOpWrite(s, i, v)
    case OpRefuse(i, v) => CanOpWrite(s, i, v)
    case OpEnd(i) => i < |s.ops| && !s.ops[i].done
    case Delete(v) => v in s.live
  }

  /** A finished operation's result file mentions these rows, all of which it had reached. */
  predicate Reports(s: State, i: nat, reported: set<Variant>) {
    i < |s.ops| && s.ops[i].done && reported <= s.ops[i].sent.Keys - s.ops[i].left
  }

  /** What a result file says of each row sent: absence is never success. */
  function Outcome(op: Op, reported: set<Variant>, v: Variant): Heard
    requires v in op.sent
  {
    if v !in reported then Wrote
    else if v in op.wrote then Confirmed(op.sent[v])
    else if v in op.gone then Gone
    else Rejected
  }

  // ----------------------------------------------------------------- steps

  function SetCamp(s: State, c: nat, k: Camp): State
    requires c < |s.camps|
  {
    s.(camps := s.camps[c := k])
  }

  function DoClaim(w: World, s: State, c: nat, kind: Kind, resume: bool): State
    requires Shaped(w, s) && CanClaim(s, c, kind)
  {
    var k := s.camps[c];
    var before := Before(k.status, Prices(k), k.owed);
    SetCamp(s, c, Camp(ClaimState(kind),
                       if (kind == Apply) == Prices(k) then k.owed else w.defs[c].scope,
                       k.run,
                       Some(Process(kind, resume, Claimed, before, map[], None))))
  }

  /** The run row and its ledger; with some rows missing the process died writing them. */
  function DoOpen(w: World, s: State, c: nat, ledgered: set<Variant>): State
    requires CanOpen(w, s, c)
  {
    var k := s.camps[c];
    var plan := Plan(w, s, c);
    var rows := map v | v in plan && v in ledgered :: plan[v];
    var whole := plan.Keys <= ledgered;
    var run := Run(s.runs, k.process.value.kind, Executing, rows, None);
    s.(camps := s.camps[c := Camp(k.status,
                                  if whole then rows.Keys else k.owed + rows.Keys,
                                  Some(run),
                                  if whole then Some(k.process.value.(phase := Opened)) else None)],
       runs := s.runs + 1,
       ledgered := s.ledgered + Entries(c, s.runs, rows))
  }

  function Hears(k: Camp, v: Variant, h: Heard): Camp
    requires k.process.Some?
  {
    k.(process := Some(k.process.value.(phase := Sending, heard := k.process.value.heard[v := h])))
  }

  /** The store takes row `v` of campaign `c`; a deleted variant takes nothing. */
  function Lands(s: State, c: nat, run: nat, v: Variant, price: Price): State {
    if v !in s.live then s
    else s.(live := s.live[v := price], accepted := s.accepted + {Entry(c, run, v, price)})
  }

  function DoWrite(s: State, c: nat, v: Variant): State
    requires CanSend(s, c, v)
  {
    var k := s.camps[c];
    var price := k.run.value.rows[v].intended;
    SetCamp(Lands(s, c, k.run.value.no, v, price), c, Hears(k, v, if v in s.live then Wrote else Gone))
  }

  /** The request threw or was refused; a request that threw may have landed first. */
  function DoRefuse(s: State, c: nat, v: Variant, landed: bool): State
    requires CanSend(s, c, v)
  {
    var k := s.camps[c];
    var price := k.run.value.rows[v].intended;
    SetCamp(if landed then Lands(s, c, k.run.value.no, v, price) else s, c, Hears(k, v, Rejected))
  }

  function DoReadBack(s: State, c: nat, v: Variant): State
    requires CanReadBack(s, c, v)
  {
    var k := s.camps[c];
    var matches := v in s.live && s.live[v] == k.run.value.rows[v].intended;
    SetCamp(s, c, Hears(k, v, if matches then Confirmed(s.live[v]) else Rejected))
  }

  function DoSubmit(s: State, c: nat): State
    requires CanSubmit(s, c)
  {
    var k := s.camps[c];
    var rows := k.run.value.rows;
    var op := Op(c, k.run.value.no, map v | v in rows :: rows[v].intended, rows.Keys, {}, {}, false);
    s.(camps := s.camps[c := k.(process := Some(k.process.value.(phase := Sending, op := Some(|s.ops|))))],
       ops := s.ops + [op])
  }

  function DoNoteSubmitted(s: State, c: nat): State
    requires CanNote(s, c)
  {
    var k := s.camps[c];
    var rows := k.run.value.rows;
    SetCamp(s, c, k.(run := Some(k.run.value.(
      op := k.process.value.op,
      rows := map v | v in rows :: if rows[v].status == Pending then rows[v].(status := Writing) else rows[v]))))
  }

  function DoCollect(s: State, c: nat, reported: set<Variant>): State
    requires CanCollect(s, c, reported)
  {
    var k := s.camps[c];
    var op := s.ops[k.process.value.op.value];
    SetCamp(s, c, k.(process := Some(k.process.value.(
      heard := map v | v in k.run.value.rows && v in op.sent :: Outcome(op, reported, v)))))
  }

  function DoRecordRow(s: State, c: nat, v: Variant): State
    requires CanRecord(s, c, v)
  {
    var k := s.camps[c];
    var row := Recorded(k.run.value.rows[v], k.process.value.heard[v]);
    SetCamp(s, c, k.(run := Some(k.run.value.(rows := k.run.value.rows[v := row])),
                     owed := if Settled(row.status) then k.owed - {v} else k.owed,
                     process := Some(k.process.value.(phase := Recording))))
  }

  function DoSettleMirror(s: State, c: nat): State
    requires CanSettleMirror(s, c)
  {
    var k := s.camps[c];
    SetCamp(s, c, k.(process := Some(k.process.value.(phase := MirrorSettled))))
    .(mirror := Mirrored(s.mirror, k.run.value.rows))
  }

  /** Clean: every row was read back and confirmed, or its variant had been deleted. */
  predicate CleanRun(k: Camp) {
    k.run.Some? && k.process.Some?
    && forall v :: v in k.run.value.rows ==>
      v in k.process.value.heard && (k.process.value.heard[v].Confirmed? || k.process.value.heard[v].Gone?)
  }

  function DoFinishRun(s: State, c: nat): State
    requires CanFinish(s, c)
  {
    var k := s.camps[c];
    SetCamp(s, c, k.(run := Some(k.run.value.(status := if CleanRun(k) then RunCompleted else RunPartial)),
                     process := Some(k.process.value.(phase := Reported))))
  }

  function DoClose(s: State, c: nat): State
    requires CanClose(s, c)
  {
    var k := s.camps[c];
    SetCamp(s, c, k.(status := FinalState(k.process.value.kind, k.run.value.status == RunCompleted), process := None))
  }

  /** A claim given back before anything was sent. A run row, if there is one, has failed. */
  function DoRelease(w: World, s: State, c: nat): State
    requires CanRelease(w, s, c)
  {
    var k := s.camps[c];
    var before := k.process.value.before;
    var run := if k.process.value.phase == Opened && k.run.Some? then Some(k.run.value.(status := RunFailed)) else k.run;
    var back := Camp(before.status, before.owed, run, None);
    SetCamp(s, c, back.(owed := if k.process.value.phase == Opened && Prices(back) == Prices(k) then k.owed
                                else if Prices(back) == before.prices then before.owed
                                else w.defs[c].scope))
  }

  /** A run that stopped after it began writing, thrown or reclaimed: partial, and the mirror says so. */
  function DoStop(s: State, c: nat): State
    requires CanStop(s, c)
  {
    var k := s.camps[c];
    var run := Reclaimed(k.run.value);
    SetCamp(s, c, k.(status := Partial, run := Some(run), process := None))
    .(mirror := Mirrored(s.mirror, run.rows))
  }

  /** The run row says it is over, and moving the campaign to its final state threw. */
  function DoLoseClose(w: World, s: State, c: nat): State
    requires Shaped(w, s) && CanClose(s, c)
  {
    var k := s.camps[c];
    var back := k.(status := k.process.value.before.status, process := None);
    SetCamp(s, c, back.(owed := if Prices(back) == Prices(k) then k.owed else w.defs[c].scope))
  }

  /** A row settled from a result file after the run that sent it died. */
  function SettledRow(r: Row, h: Heard): Row {
    r.(status := StatusOf(h, r.clamped),
       observed := if h.Confirmed? then Some(h.observed) else r.observed,
       attempt := if h.Rejected? then r.attempt + 1 else r.attempt)
  }

  function SettledRows(rows: map<Variant, Row>, op: Op, reported: set<Variant>): map<Variant, Row> {
    map v | v in rows ::
      if rows[v].status == Writing && v in op.sent then SettledRow(rows[v], Outcome(op, reported, v)) else rows[v]
  }

  function DoSettleOp(s: State, c: nat, reported: set<Variant>, mirrored: bool): State
    requires CanSettleOp(s, c, reported)
  {
    var k := s.camps[c];
    var rows := SettledRows(k.run.value.rows, s.ops[k.run.value.op.value], reported);
    SetCamp(s, c, k.(run := Some(k.run.value.(rows := rows)),
                     owed := set v | v in k.owed && !(v in rows && k.run.value.rows[v].status == Writing && Settled(rows[v].status))))
    .(mirror := if mirrored then Mirrored(s.mirror, rows) else s.mirror)
  }

  function DoOpWrite(s: State, i: nat, v: Variant): State
    requires CanOpWrite(s, i, v)
  {
    var op := s.ops[i];
    var op' := if v in s.live then op.(left := op.left - {v}, wrote := op.wrote + {v})
               else op.(left := op.left - {v}, gone := op.gone + {v});
    Lands(s, op.owner, op.run, v, op.sent[v]).(ops := s.ops[i := op'])
  }

  function Step(w: World, s: State, e: Event): State
    requires Enabled(w, s, e)
  {
    match e
    case Claim(c, kind, resume) => DoClaim(w, s, c, kind, resume)
    case Open(c, ledgered) => DoOpen(w, s, c, ledgered)
    case Write(c, v) => DoWrite(s, c, v)
    case Refuse(c, v, landed) => DoRefuse(s, c, v, landed)
    case ReadBack(c, v) => DoReadBack(s, c, v)
    case Submit(c) => DoSubmit(s, c)
    case NoteSubmitted(c) => DoNoteSubmitted(s, c)
    case Collect(c, reported) => DoCollect(s, c, reported)
    case RecordRow(c, v) => DoRecordRow(s, c, v)
    case SettleMirror(c) => DoSettleMirror(s, c)
    case FinishRun(c) => DoFinishRun(s, c)
    case Close(c) => DoClose(s, c)
    case Release(c) => DoRelease(w, s, c)
    case StopWriting(c) => DoStop(s, c)
    case LoseClose(c) => DoLoseClose(w, s, c)
    case Die(c) => SetCamp(s, c, s.camps[c].(process := None))
    case Reap(c) => DoStop(s, c)
    case SettleOp(c, reported, mirrored) => DoSettleOp(s, c, reported, mirrored)
    case OpWrite(i, v) => DoOpWrite(s, i, v)
    case OpRefuse(i, v) => s.(ops := s.ops[i := s.ops[i].(left := s.ops[i].left - {v})])
    case OpEnd(i) => s.(ops := s.ops[i := s.ops[i].(done := true)])
    case Delete(v) => s.(live := s.live - {v})
  }

  /** Every event of `es` was enabled when its turn came. */
  predicate Runs(w: World, s: State, es: seq<Event>)
    decreases |es|
  {
    es == [] || (Enabled(w, s, es[0]) && Runs(w, Step(w, s, es[0]), es[1..]))
  }

  function After(w: World, s: State, es: seq<Event>): State
    requires Runs(w, s, es)
    decreases |es|
  {
    if es == [] then s else After(w, Step(w, s, es[0]), es[1..])
  }

  /**
   * Nothing written yet: every variant at its baseline, every campaign a draft or scheduled, and a
   * mirror that is right wherever it says anything.
   */
  predicate Fresh(w: World, s: State) {
    && Shaped(w, s)
    && s.live == w.baseline
    && (forall v :: v in s.mirror ==> v in s.live && s.mirror[v] == s.live[v])
    && (forall k :: k in s.camps ==> k.status in {Draft, Scheduled} && k.owed == {} && k.run.None? && k.process.None?)
    && s.ops == [] && s.ledgered == {} && s.accepted == {}
  }
}
