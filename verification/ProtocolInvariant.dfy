/** What every step of the campaign protocol keeps. */
module ProtocolInvariant {
  import opened Wrappers
  import opened Lifecycle
  import opened Ledger
  import opened Protocol

  // -------------------------------------------------------------- busyness

  /** A run that is live, or whose rows sit in a bulk operation nobody has read the result of. */
  predicate InProgress(k: Camp) {
    LiveRun(k) || Sent(k)
  }

  predicate OpRunning(s: State, c: nat) {
    exists i :: 0 <= i < |s.ops| && s.ops[i].owner == c && !s.ops[i].done
  }

  /** Prices of campaign `c` may still be on their way to the store, or a claim to send some is held. */
  predicate Busy(s: State, c: nat)
    requires c < |s.camps|
  {
    s.camps[c].process.Some? || InProgress(s.camps[c]) || OpRunning(s, c)
  }

  predicate Disjoint(w: World, c: nat, d: nat)
    requires c < |w.defs| && d < |w.defs|
  {
    w.defs[c].scope !! w.defs[d].scope
  }

  /**
   * The condition on a claim under which prices stay right: no other busy campaign covers a
   * variant this one covers, and Shopify is not still running an operation of this campaign's own.
   * A resume is asked of a campaign shown Partial, where the page offers it.
   */
  predicate Clear(w: World, s: State, e: Event)
    requires Shaped(w, s)
  {
    e.Claim? && e.c < |s.camps| ==>
      && !OpRunning(s, e.c)
      && (forall d: nat :: d < |s.camps| && d != e.c && Busy(s, d) ==> Disjoint(w, e.c, d))
      && (e.resume ==> s.camps[e.c].status == Partial)
  }

  // ------------------------------------------------------- campaign clauses

  /** The ledger of a campaign's latest run. */
  predicate RunOk(w: World, s: State, c: nat)
    requires Shaped(w, s) && c < |s.camps|
  {
    var k := s.camps[c];
    k.run.Some? ==>
      var run := k.run.value;
      && run.rows.Keys <= w.defs[c].scope
      && (forall v :: v in run.rows ==> RowOk(s, run.rows[v], v))
      && (forall v :: v in run.rows ==> Entry(c, run.no, v, run.rows[v].intended) in s.ledgered)
      && (run.status == RunCompleted ==> forall v :: v in run.rows ==> Settled(run.rows[v].status))
      && (LiveRun(k) ==> k.status == ClaimState(run.kind))
      && (run.status == RunFailed ==> NothingSent(k))
      && (run.op.None? ==> forall v :: v in run.rows ==> run.rows[v].status != Writing)
      && (run.op.Some? ==> HoldsRun(s, c, run.op.value) && run.status != RunFailed)
      && (InProgress(k) ==> forall v :: v in run.rows ==>
            Target(w, Pricing(s), v) == Priced(run.rows[v].intended, run.rows[v].clamped))
      && (InProgress(k) ==> forall v :: v in run.rows && v in s.live && Landed(run.rows[v].status) ==>
            s.live[v] == run.rows[v].intended)
  }

  predicate RowOk(s: State, r: Row, v: Variant) {
    && r.attempt <= 1
    && (Waiting(r.status) ==> r.attempt == 0)
    && (Landed(r.status) ==> r.observed == Some(r.intended) && r.attempt == 0 && r.status == if r.clamped then Clamped else Verified)
    && (r.status == Failed ==> r.attempt == 1)
    && (r.status == Skipped ==> v !in s.live)
    && r.status != Reverted
  }

  /** Operation `i` carries exactly the rows of `c`'s latest run. */
  predicate HoldsRun(s: State, c: nat, i: nat)
    requires c < |s.camps|
  {
    s.camps[c].run.Some? &&
    var run := s.camps[c].run.value;
    && i < |s.ops| && s.ops[i].owner == c && s.ops[i].run == run.no
    && s.ops[i].sent.Keys == run.rows.Keys
    && (forall v :: v in run.rows ==> s.ops[i].sent[v] == run.rows[v].intended)
  }

  /** Decisions not yet delivered cover every outstanding row, and no settled row of a run that is live or ended partial. */
  predicate OwedOk(w: World, s: State, c: nat)
    requires Shaped(w, s) && c < |s.camps|
  {
    var k := s.camps[c];
    && k.owed <= w.defs[c].scope
    && (k.run.Some? && k.run.value.status != RunFailed ==>
          forall v :: v in k.run.value.rows && Outstanding(k.run.value.rows[v]) ==> v in k.owed)
    && (k.run.Some? && (k.status == Partial || LiveRun(k) || At(k, Reported)) ==> SettledNotIn(k, k.owed))
  }

  predicate SettledNotIn(k: Camp, owed: set<Variant>) {
    k.run.Some? && forall v :: v in k.run.value.rows && Settled(k.run.value.rows[v].status) ==> v !in owed
  }

  /** The mirror says nothing false about the rows of `c`'s run. */
  predicate RowsMirrored(s: State, c: nat)
    requires c < |s.camps| && s.camps[c].run.Some?
  {
    forall v :: v in s.camps[c].run.value.rows && v in s.live && v in s.mirror ==> s.mirror[v] == s.live[v]
  }

  /** What the live process remembers. */
  predicate ProcessOk(w: World, s: State, c: nat)
    requires Shaped(w, s) && c < |s.camps|
  {
    var k := s.camps[c];
    k.process.Some? ==>
      var pr := k.process.value;
      && k.status == ClaimState(pr.kind)
      && pr.before.owed <= w.defs[c].scope
      && (pr.phase == Claimed ==> !InProgress(k) && pr.op.None? && ClaimOk(k)
                                  && ((pr.kind == Apply) != pr.before.prices ==> k.owed == w.defs[c].scope))
      && ((pr.phase == Claimed || pr.phase == Opened) ==> pr.heard == map[] && !OpRunning(s, c) && Undone(w, s, c))
      && (pr.phase != Claimed ==> k.run.Some? && k.run.value.kind == pr.kind)
      && ((pr.phase == Opened || pr.phase == Sending || pr.phase == Recording || pr.phase == MirrorSettled) ==> LiveRun(k) && HearingOk(s, c))
      && (pr.phase == Opened ==> k.run.value.op.None? && pr.op.None? && RowsMirrored(s, c) && NothingSent(k))
      && (pr.phase == MirrorSettled ==> RowsMirrored(s, c) && AllRecorded(k))
      && ((pr.phase == MirrorSettled || pr.phase == Reported) ==> !Sent(k) && !OpRunning(s, c))
      && (pr.phase == Reported ==> (k.run.value.status == RunCompleted || k.run.value.status == RunPartial))
  }

  predicate NothingSent(k: Camp) {
    k.run.Some? && forall v :: v in k.run.value.rows ==> k.run.value.rows[v].status == Pending
  }

  /** Before planning, the latest run is still the one the claim found. */
  predicate ClaimOk(k: Camp)
    requires k.process.Some?
  {
    var b := k.process.value.before;
    && b.prices == (PricingState(b.status) && !(k.run.Some? && k.run.value.kind == Revert))
    && (k.run.Some? && k.run.value.status != RunFailed ==>
          forall v :: v in k.run.value.rows && Outstanding(k.run.value.rows[v]) ==> v in b.owed)
    && (k.run.Some? && b.status == Partial ==> SettledNotIn(k, b.owed))
    && (b.owed <= k.owed)
    && ((k.process.value.kind == Apply) == b.prices ==> k.owed == b.owed)
    && (k.process.value.resume ==> b.status == Partial)
  }

  /** What the process heard is so, and what it recorded is what it heard. */
  predicate HearingOk(s: State, c: nat)
    requires c < |s.camps| && s.camps[c].run.Some? && s.camps[c].process.Some?
  {
    var k := s.camps[c];
    var pr := k.process.value;
    && pr.heard.Keys <= k.run.value.rows.Keys
    && (forall v :: v in pr.heard && pr.heard[v].Confirmed? ==>
          pr.heard[v].observed == k.run.value.rows[v].intended && (v in s.live ==> s.live[v] == pr.heard[v].observed))
    && (forall v :: v in pr.heard && pr.heard[v].Gone? ==> v !in s.live)
    && (forall v :: v in k.run.value.rows && !Waiting(k.run.value.rows[v].status) ==>
          v in pr.heard && k.run.value.rows[v].status == StatusOf(pr.heard[v], k.run.value.rows[v].clamped))
    && ((pr.phase == Opened || pr.phase == Sending) ==>
          forall v :: v in k.run.value.rows ==> Waiting(k.run.value.rows[v].status))
    && (pr.op.Some? ==> HoldsRun(s, c, pr.op.value))
    && (pr.op.None? ==> !OpRunning(s, c))
    && (k.run.value.op.Some? ==> pr.op == k.run.value.op)
    && (pr.op.Some? && !s.ops[pr.op.value].done ==> pr.heard == map[])
  }

  /** Nothing has been sent, so giving the claim back leaves the storefront as the claim found it. */
  predicate Undone(w: World, s: State, c: nat)
    requires Shaped(w, s) && c < |s.camps| && s.camps[c].process.Some?
  {
    var b := s.camps[c].process.value.before;
    forall v :: v in w.defs[c].scope && v in s.live && v !in b.owed && NoOneElseOwes(s, c, v)
      ==> Shows(w, s, With(Pricing(s), c, b.prices), v)
  }

  predicate NoOneElseOwes(s: State, c: nat, v: Variant) {
    forall d: nat :: d < |s.camps| && d != c ==> v !in s.camps[d].owed
  }

  /** `v` shows the price resolution gives it; a skipped or blocked variant is left to itself. */
  predicate Shows(w: World, s: State, p: set<nat>, v: Variant) {
    v in s.live && Target(w, p, v).Priced? ==> s.live[v] == Target(w, p, v).price
  }

  predicate CampOk(w: World, s: State, c: nat)
    requires Shaped(w, s) && c < |s.camps|
  {
    RunOk(w, s, c) && OwedOk(w, s, c) && ProcessOk(w, s, c)
  }

  // ------------------------------------------------------ operation clauses

  predicate OpOk(w: World, s: State, i: nat)
    requires Shaped(w, s) && i < |s.ops|
  {
    var op := s.ops[i];
    && op.owner < |s.camps|
    && op.sent.Keys <= w.defs[op.owner].scope
    && op.sent != map[] && op.left <= op.sent.Keys && op.wrote <= op.sent.Keys
    && op.left !! op.wrote && op.left !! op.gone && op.wrote !! op.gone
    && (forall v :: v in op.gone ==> v !in s.live)
    && (forall v :: v in op.sent ==> Entry(op.owner, op.run, v, op.sent[v]) in s.ledgered)
    && (!op.done ==> OpUnfinished(s, i))
    && (HoldsLatest(s, i) && InProgress(s.camps[op.owner]) ==>
          forall v :: v in op.wrote && v in s.live ==> s.live[v] == op.sent[v])
  }

  /** Operation `i` is the one the latest run of its owner sent, as its process or its ledger knows. */
  predicate HoldsLatest(s: State, i: nat)
    requires i < |s.ops| && s.ops[i].owner < |s.camps|
  {
    var k := s.camps[s.ops[i].owner];
    (k.process.Some? && k.process.value.op == Some(i)) || (k.run.Some? && k.run.value.op == Some(i))
  }

  /** Rows still to be written are outstanding, and the mirror does not claim to know them. */
  predicate OpUnfinished(s: State, i: nat)
    requires i < |s.ops| && s.ops[i].owner < |s.camps|
  {
    var op := s.ops[i];
    var k := s.camps[op.owner];
    && HoldsRun(s, op.owner, i)
    && (forall v :: v in op.left && v in k.run.value.rows ==> v in k.owed && Outstanding(k.run.value.rows[v]))
    && (LiveRun(k) || forall v :: v in op.left ==> v !in s.mirror)
    && (forall j :: 0 <= j < |s.ops| && j != i && !s.ops[j].done ==> s.ops[j].owner != op.owner)
    && (k.run.value.status == Executing || k.run.value.status == RunPartial)
    && (k.run.value.op.None? || k.run.value.op == Some(i))
    && (k.process.Some? ==> k.process.value.op == Some(i))
  }

  // --------------------------------------------------------- variant clauses

  /** A live run may have changed `v` since the mirror was read. */
  predicate Dirty(s: State, c: nat, v: Variant)
    requires c < |s.camps|
  {
    LiveRun(s.camps[c]) && v in s.camps[c].run.value.rows
  }

  predicate MirrorOk(s: State, v: Variant) {
    v in s.live && v in s.mirror && (forall c: nat :: c < |s.camps| ==> !Dirty(s, c, v)) ==> s.mirror[v] == s.live[v]
  }

  predicate PriceOk(w: World, s: State, v: Variant) {
    (forall c: nat :: c < |s.camps| ==> v !in s.camps[c].owed) ==> Shows(w, s, Pricing(s), v)
  }

  ghost predicate Inv(w: World, s: State) {
    && Shaped(w, s)
    && (forall c: nat :: c < |s.camps| ==> CampOk(w, s, c))
    && (forall i: nat :: i < |s.ops| ==> OpOk(w, s, i))
    && (forall c: nat, d: nat :: c < |s.camps| && d < |s.camps| && c != d && Busy(s, c) && Busy(s, d) ==> Disjoint(w, c, d))
    && (forall v: Variant :: MirrorOk(s, v))
    && (forall v: Variant :: PriceOk(w, s, v))
    && s.accepted <= s.ledgered
  }
}
