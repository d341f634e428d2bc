/** The ledger: what each row of a run says, and what a resume and a summary make of it. */
module Ledger {
  import opened Wrappers

  type Variant = nat

  /** Integer minor units of the store's currency. */
  type Price = int

  datatype RowState = Pending | Writing | Applied | Verified | Failed | Skipped | Clamped | Reverted

  /**
   * One row of a run. `observed` is the price read back from the store, on a row that was.
   */
  datatype Row = Row(intended: Price, clamped: bool, status: RowState, observed: Option<Price>, attempt: nat)

  const MAX_ATTEMPTS: nat := 5

  /** Nothing is left to do for a row in one of these. */
  predicate Settled(s: RowState) {
    s == Verified || s == Skipped || s == Clamped || s == Reverted
  }

  predicate Unsettled(s: RowState) {
    !Settled(s)
  }

  /** Sent or not, nothing has been recorded of the row yet. */
  predicate Waiting(s: RowState) {
    s == Pending || s == Writing
  }

  /** The row's price is on the storefront, written and read back. */
  predicate Landed(s: RowState) {
    s == Verified || s == Clamped
  }

  /** Rows a resume sends again: never seen, or outstanding with attempts left. */
  predicate ResumeSends(prior: map<Variant, Row>, v: Variant) {
    v !in prior || (!Settled(prior[v].status) && prior[v].attempt < MAX_ATTEMPTS)
  }

  /** The members of `s` a resume sends, in order. */
  function Filter(s: seq<Variant>, prior: map<Variant, Row>): (r: seq<Variant>)
    ensures forall v :: v in r <==> v in s && ResumeSends(prior, v)
  {
    if s == [] then []
    else (if ResumeSends(prior, s[0]) then [s[0]] else []) + Filter(s[1..], prior)
  }

  lemma {:induction false} FilterExtends(s: seq<Variant>, v: Variant, prior: map<Variant, Row>)
    ensures Filter(s + [v], prior) == Filter(s, prior) + (if ResumeSends(prior, v) then [v] else [])
  {
    if s == [] {
    } else {
      assert (s + [v])[1..] == s[1..] + [v];
      FilterExtends(s[1..], v, prior);
    }
  }

  /** Where a planned row goes: sent, counted as verified, counted as quarantined, or merely left. */
  datatype Fate = Sends | CountsVerified | CountsQuarantined | MerelyLeft

  /** A row whose outcome nobody knows, or knows to have failed. */
  predicate Open(prior: map<Variant, Row>, v: Variant) {
    v in prior && prior[v].status in {Pending, Writing, Applied, Failed}
  }

  function FateOf(prior: map<Variant, Row>, v: Variant): (f: Fate)
    ensures f == Sends <==> ResumeSends(prior, v)
    ensures f == Sends <==> v !in prior || (Open(prior, v) && prior[v].attempt < 5)
    ensures f == CountsQuarantined <==> Open(prior, v) && prior[v].attempt >= 5
    ensures f == CountsVerified <==> v in prior && prior[v].status in {Verified, Clamped}
    ensures f == MerelyLeft <==> v in prior && prior[v].status in {Skipped, Reverted}
  {
    if ResumeSends(prior, v) then Sends
    else if Landed(prior[v].status) then CountsVerified
    else if Settled(prior[v].status) then MerelyLeft
    else CountsQuarantined
  }

  /** How many of `s` meet one fate. */
  function Meeting(s: seq<Variant>, prior: map<Variant, Row>, f: Fate): nat {
    if s == [] then 0 else Meeting(s[..|s| - 1], prior, f) + if FateOf(prior, s[|s| - 1]) == f then 1 else 0
  }

  /** Where in `s` one fate is met. */
  function Places(s: seq<Variant>, prior: map<Variant, Row>, f: Fate): set<nat> {
    set k: nat | k < |s| && FateOf(prior, s[k]) == f
  }

  lemma PlacesGrow(s: seq<Variant>, last: nat, prior: map<Variant, Row>, f: Fate)
    requires |s| == last + 1
    ensures Places(s, prior, f) == Places(s[..last], prior, f) + if FateOf(prior, s[last]) == f then {last} else {}
    ensures last !in Places(s[..last], prior, f)
  {
  }

  lemma {:induction false} MeetingCounts(s: seq<Variant>, prior: map<Variant, Row>, f: Fate)
    ensures Meeting(s, prior, f) == |Places(s, prior, f)|
  {
    if s == [] {
      assert Places(s, prior, f) == {};
    } else {
      var last := |s| - 1;
      MeetingCounts(s[..last], prior, f);
      PlacesGrow(s, last, prior, f);
    }
  }

  lemma OneMorePlanned(s: seq<Variant>, i: nat, prior: map<Variant, Row>)
    requires i < |s|
    ensures Filter(s[..i + 1], prior) == Filter(s[..i], prior) + (if ResumeSends(prior, s[i]) then [s[i]] else [])
    ensures forall f :: Meeting(s[..i + 1], prior, f) == Meeting(s[..i], prior, f) + if FateOf(prior, s[i]) == f then 1 else 0
  {
    assert s[..i + 1] == s[..i] + [s[i]];
    assert s[..i + 1][..i] == s[..i];
    FilterExtends(s[..i], s[i], prior);
  }

  /** Every planned row meets exactly one fate, and the rows sent are the filter's. */
  lemma {:induction false} FatesPartition(s: seq<Variant>, prior: map<Variant, Row>)
    ensures Meeting(s, prior, Sends) + Meeting(s, prior, CountsVerified) + Meeting(s, prior, CountsQuarantined)
            + Meeting(s, prior, MerelyLeft) == |s|
    ensures Meeting(s, prior, Sends) == |Filter(s, prior)|
  {
    if s != [] {
      var last := |s| - 1;
      FatesPartition(s[..last], prior);
      assert s == s[..last] + [s[last]];
      FilterExtends(s[..last], s[last], prior);
    }
  }

  /** Nothing is quarantined while no row has used up its attempts. */
  lemma {:induction false} NoneQuarantined(s: seq<Variant>, prior: map<Variant, Row>)
    requires forall v :: v in prior ==> prior[v].attempt < MAX_ATTEMPTS
    ensures Meeting(s, prior, CountsQuarantined) == 0
  {
    if s != [] {
      NoneQuarantined(s[..|s| - 1], prior);
    }
  }

  /**
   * What a resumed run works on: the rows it sends, in plan order, and how many of the others it
   * reports as verified and as out of attempts. A row settled any other way is in neither count.
   */
  method PlanResume(planned: seq<Variant>, prior: map<Variant, Row>)
    returns (todo: seq<Variant>, alreadyVerified: nat, quarantined: nat)
    ensures todo == Filter(planned, prior)
    ensures alreadyVerified == Meeting(planned, prior, CountsVerified) == |Places(planned, prior, CountsVerified)|
    ensures quarantined == Meeting(planned, prior, CountsQuarantined) == |Places(planned, prior, CountsQuarantined)|
    ensures |todo| + alreadyVerified + quarantined + Meeting(planned, prior, MerelyLeft) == |planned|
  {
    todo, alreadyVerified, quarantined := [], 0, 0;
    for i := 0 to |planned|
      invariant todo == Filter(planned[..i], prior)
      invariant alreadyVerified == Meeting(planned[..i], prior, CountsVerified)
      invariant quarantined == Meeting(planned[..i], prior, CountsQuarantined)
    {
      var v := planned[i];
      OneMorePlanned(planned, i, prior);
      if v !in prior {
        todo := todo + [v];
      } else if Settled(prior[v].status) {
        if Landed(prior[v].status) {
          alreadyVerified := alreadyVerified + 1;
        }
      } else if prior[v].attempt >= MAX_ATTEMPTS {
        quarantined := quarantined + 1;
      } else {
        todo := todo + [v];
      }
    }
    assert planned[..|planned|] == planned;
    FatesPartition(planned, prior);
    MeetingCounts(planned, prior, CountsVerified);
    MeetingCounts(planned, prior, CountsQuarantined);
  }

  /** How many of `rows` are in a state `p` accepts. */
  function Count(rows: seq<Row>, p: RowState -> bool): (n: nat)
    ensures n == 0 <==> forall i :: 0 <= i < |rows| ==> !p(rows[i].status)
  {
    if rows == [] then 0
    else
      assert forall i :: 0 <= i < |rows[1..]| ==> rows[1..][i] == rows[i + 1];
      assert (forall i :: 0 <= i < |rows| ==> !p(rows[i].status))
             ==> forall i :: 0 <= i < |rows[1..]| ==> !p(rows[1..][i].status);
      assert rows == [rows[0]] + rows[1..];
      (if p(rows[0].status) then 1 else 0) + Count(rows[1..], p)
  }

  lemma {:induction false} CountExtends(rows: seq<Row>, row: Row, p: RowState -> bool)
    ensures Count(rows + [row], p) == Count(rows, p) + (if p(row.status) then 1 else 0)
  {
    if rows == [] {
      assert [row][1..] == [];
    } else {
      assert (rows + [row])[1..] == rows[1..] + [row];
      CountExtends(rows[1..], row, p);
    }
  }

  /** The run's outcome: clean exactly when no row is outstanding. */
  method RunOutcome(rows: seq<Row>) returns (clean: bool, verified: nat, outstanding: nat)
    ensures clean <==> forall i :: 0 <= i < |rows| ==> Settled(rows[i].status)
    ensures verified == Count(rows, Landed)
    ensures outstanding == Count(rows, Unsettled)
  {
    verified, outstanding := 0, 0;
    for i := 0 to |rows|
      invariant verified == Count(rows[..i], Landed)
      invariant outstanding == Count(rows[..i], Unsettled)
    {
      assert rows[..i + 1] == rows[..i] + [rows[i]];
      CountExtends(rows[..i], rows[i], Landed);
      CountExtends(rows[..i], rows[i], Unsettled);
      if Landed(rows[i].status) {
        verified := verified + 1;
      } else if !Settled(rows[i].status) {
        outstanding := outstanding + 1;
      }
    }
    assert rows[..|rows|] == rows;
    clean := outstanding == 0;
  }
}
