/**
 * The bulk script's story: an apply sent to Shopify in one operation, a run that stops watching it,
 * and resumes that are refused until it is over and then settle every row from its result.
 */
module BulkRuns {
  import opened Wrappers
  import opened Ledger
  import opened Protocol
  import opened ScriptRuns

  /** What Shopify gets to between two looks: rows it reaches, those it refuses, and whether it is over. */
  datatype Progress = Progress(reached: seq<Variant>, refused: set<Variant>, over: bool)

  /** A store's own bulk queue: the operation running or last run, and how many it ever accepted. */
  class Shopify {
    var live: map<Variant, Price>
    var op: Op
    var accepted: nat

    constructor (live: map<Variant, Price>)
      ensures this.live == live && op == Op(0, 0, map[], {}, {}, {}, true) && accepted == 0
      ensures Honest()
    {
      this.live := live;
      op := Op(0, 0, map[], {}, {}, {}, true);
      accepted := 0;
    }

    /** What it says it wrote is live, and what it found deleted is gone. */
    ghost predicate Honest()
      reads this
    {
      && op.left <= op.sent.Keys && op.wrote <= op.sent.Keys && op.left !! op.wrote
      && (forall v :: v in op.wrote ==> v in live && live[v] == op.sent[v])
      && (forall v :: v in op.gone ==> v !in live)
    }

    method Accept(sent: map<Variant, Price>)
      modifies this`op, this`accepted
      ensures op == Op(0, accepted, sent, sent.Keys, {}, {}, false) && accepted == old(accepted) + 1 && Honest()
    {
      accepted := accepted + 1;
      op := Op(0, accepted, sent, sent.Keys, {}, {}, false);
    }

    /** One row reached: written, refused, or found deleted. */
    method Reach(v: Variant, refused: bool)
      requires Honest() && v in op.left
      modifies this`live, this`op
      ensures Honest() && live.Keys == old(live).Keys
      ensures op == old(op).(left := old(op).left - {v}, wrote := op.wrote, gone := op.gone)
      ensures op.wrote == old(op).wrote + if !refused && v in live then {v} else {}
      ensures op.gone == old(op).gone + if !refused && v !in live then {v} else {}
      ensures forall u :: u in live && (u != v || u !in op.wrote) ==> live[u] == old(live)[u]
    {
      if refused {
        op := op.(left := op.left - {v});
      } else if v in live {
        live := live[v := op.sent[v]];
        op := op.(left := op.left - {v}, wrote := op.wrote + {v});
      } else {
        op := op.(left := op.left - {v}, gone := op.gone + {v});
      }
    }

    /** It works through some of what is left, on its own clock. */
    method Work(progress: Progress)
      requires Honest()
      modifies this`live, this`op
      ensures Honest() && live.Keys == old(live).Keys
      ensures op == old(op).(left := op.left, wrote := op.wrote, gone := op.gone, done := op.done)
      ensures op.left == if old(op).done then old(op).left else old(op).left - Members(progress.reached)
      ensures op.done <==> old(op).done || progress.over
      ensures op.wrote == old(op).wrote + set v | v in old(op).left && v !in op.left && v !in progress.refused && v in live
      ensures op.gone == old(op).gone + set v | v in old(op).left && v !in op.left && v !in progress.refused && v !in live
      ensures forall v :: v in live && v !in op.wrote ==> live[v] == old(live)[v]
    {
      if op.done {
        return;
      }
      for i := 0 to |progress.reached|
        invariant Honest() && live.Keys == old(live).Keys
        invariant op == old(op).(left := op.left, wrote := op.wrote, gone := op.gone)
        invariant op.left == old(op).left - Members(progress.reached[..i])
        invariant op.wrote == old(op).wrote + set v | v in old(op).left && v !in op.left && v !in progress.refused && v in live
        invariant op.gone == old(op).gone + set v | v in old(op).left && v !in op.left && v !in progress.refused && v !in live
        invariant forall v :: v in live && v !in op.wrote ==> live[v] == old(live)[v]
      {
        var v := progress.reached[i];
        assert progress.reached[..i + 1] == progress.reached[..i] + [v];
        if v in op.left {
          Reach(v, v in progress.refused);
        }
      }
      assert progress.reached[..|progress.reached|] == progress.reached;
      op := op.(done := progress.over);
    }
  }

  /** The campaign's side: its ledger, and what the records say of its operation. */
  class BulkCampaign {
    const order: seq<Variant>
    var ledger: map<Variant, Row>

    constructor (order: seq<Variant>)
      ensures this.order == order && ledger == map[]
    {
      this.order := order;
      ledger := map[];
    }

    /** Sends every price in one operation and stops watching: every row reads as sent. */
    method SendAndStop(goal: map<Variant, Price>, shop: Shopify)
      modifies this, shop`op, shop`accepted
      ensures ledger == AllWriting(goal) && shop.accepted == old(shop.accepted) + 1 && shop.Honest()
      ensures shop.op == Op(0, shop.accepted, goal, goal.Keys, {}, {}, false)
    {
      ledger := map v | v in goal :: Row(goal[v], false, Pending, None, 0);
      shop.Accept(goal);
      ledger := map v | v in ledger :: ledger[v].(status := Writing);
    }

    /**
     * Asks Shopify first. Refused while the operation runs, changing nothing. Once it is over its
     * result settles the ledger, and only rows still outstanding are sent again.
     */
    method TryResume(shop: Shopify, reported: set<Variant>) returns (refused: bool, again: set<Variant>)
      requires shop.Honest() && Members(order) == ledger.Keys == shop.op.sent.Keys
      modifies this, shop`op, shop`accepted
      ensures refused == !old(shop.op).done
      ensures refused ==> again == {} && ledger == old(ledger) && shop.op == old(shop.op) && shop.accepted == old(shop.accepted)
      ensures !refused ==> ledger == SettledRows(old(ledger), old(shop.op), reported)
      ensures !refused ==> again == OutstandingIn(ledger)
      ensures shop.accepted == old(shop.accepted) + if again == {} then 0 else 1
    {
      refused, again := !shop.op.done, {};
      if refused {
        return;
      }
      SettleRows(shop.op, reported);
      again := set v | v in ledger && Outstanding(ledger[v]);
      if again != {} {
        shop.Accept(map v | v in again :: ledger[v].intended);
      }
    }

    /** Every sent row takes what the result file says of it. */
    method SettleRows(op: Op, reported: set<Variant>)
      requires Members(order) == ledger.Keys == op.sent.Keys
      modifies this
      ensures ledger == SettledRows(old(ledger), op, reported)
    {
      for i := 0 to |order|
        invariant ledger.Keys == old(ledger).Keys
        invariant forall v :: v in ledger ==>
                    ledger[v] == if v in order[..i] then SettledRows(old(ledger), op, reported)[v] else old(ledger)[v]
      {
        var v := order[i];
        assert v in Members(order);
        assert order[..i + 1] == order[..i] + [v];
        if ledger[v].status == Writing {
          ledger := ledger[v := SettledRow(ledger[v], Outcome(op, reported, v))];
        }
      }
      assert order[..|order|] == order;
      assert forall v :: v in ledger ==> v in Members(order);
    }
  }

  function AllWriting(goal: map<Variant, Price>): map<Variant, Row> {
    map v | v in goal :: Row(goal[v], false, Writing, None, 0)
  }

  function OutstandingIn(rows: map<Variant, Row>): set<Variant> {
    set v | v in rows && Outstanding(rows[v])
  }

  const PATIENCE: nat := 30

  /** The operation is over by the `n`th look. */
  predicate OverBy(progress: seq<Progress>, n: nat) {
    exists i :: 0 <= i < n && i < |progress| && progress[i].over
  }

  predicate ReachedBy(progress: seq<Progress>, n: nat, v: Variant) {
    exists i :: 0 <= i < n && i < |progress| && v in progress[i].reached
  }

  predicate NoneRefused(progress: seq<Progress>) {
    forall p :: p in progress ==> p.refused == {}
  }

  /** What a settled ledger says: nothing pending, nothing verified that is not live, nothing unmentioned called done. */
  ghost predicate SettledSo(rows: map<Variant, Row>, live: map<Variant, Price>, goal: map<Variant, Price>, wrote: set<Variant>,
                            reported: set<Variant>) {
    rows.Keys == goal.Keys
    && forall v :: v in rows ==>
         && !Waiting(rows[v].status) && rows[v].intended == goal[v]
         && (Landed(rows[v].status) <==> v in wrote * reported)
         && (Landed(rows[v].status) ==> v in live && live[v] == goal[v])
         && (v !in reported ==> rows[v].status == Applied)
  }

  lemma ResultSettles(op: Op, live: map<Variant, Price>, goal: map<Variant, Price>, reported: set<Variant>)
    requires op.sent == goal && op.wrote <= goal.Keys && forall v :: v in op.wrote ==> v in live && live[v] == goal[v]
    ensures SettledSo(SettledRows(AllWriting(goal), op, reported), live, goal, op.wrote, reported)
  {
  }

  /** The operation as it stands after `n` looks, every row it took being this campaign's. */
  ghost predicate Underway(op: Op, live: map<Variant, Price>, baseline: map<Variant, Price>, goal: map<Variant, Price>,
                           progress: seq<Progress>, n: nat) {
    && op.sent == goal && (op.done <==> OverBy(progress, n))
    && live.Keys == baseline.Keys == goal.Keys
    && (forall v :: v in live ==> live[v] == if v in op.wrote then goal[v] else baseline[v])
    && (forall v :: v in goal ==> (v in op.left <==> !ReachedBy(progress, n, v)))
    && (NoneRefused(progress) ==> forall v :: v in goal ==> v in op.left || v in op.wrote)
  }

  /** One more look. */
  lemma OneMoreLook(progress: seq<Progress>, n: nat, v: Variant)
    ensures OverBy(progress, n + 1) <==> OverBy(progress, n) || (n < |progress| && progress[n].over)
    ensures ReachedBy(progress, n + 1, v) <==> ReachedBy(progress, n, v) || (n < |progress| && v in progress[n].reached)
  {
  }

  /** Shopify between two looks. */
  method Wait(shop: Shopify, ghost baseline: map<Variant, Price>, ghost goal: map<Variant, Price>,
              progress: seq<Progress>, n: nat)
    requires shop.Honest() && !shop.op.done && Underway(shop.op, shop.live, baseline, goal, progress, n)
    modifies shop`live, shop`op
    ensures shop.Honest() && Underway(shop.op, shop.live, baseline, goal, progress, n + 1)
  {
    ghost var left, wrote := shop.op.left, shop.op.wrote;
    if n < |progress| {
      shop.Work(progress[n]);
      assert progress[n] in progress;
    }
    forall v
      ensures ReachedBy(progress, n + 1, v) <==> ReachedBy(progress, n, v) || (n < |progress| && v in progress[n].reached)
      ensures OverBy(progress, n + 1) <==> OverBy(progress, n) || (n < |progress| && progress[n].over)
    {
      OneMoreLook(progress, n, v);
    }
  }

  /** Nothing read back yet: every row sent, in the one operation, which is still running. */
  ghost predicate StillSent(c: BulkCampaign, shop: Shopify, baseline: map<Variant, Price>, goal: map<Variant, Price>,
                            progress: seq<Progress>, n: nat)
    reads c, shop
  {
    && Members(c.order) == goal.Keys && c.ledger == AllWriting(goal) && shop.accepted == 1
    && shop.Honest() && !shop.op.done && Underway(shop.op, shop.live, baseline, goal, progress, n)
  }

  /** The store as far as Shopify wrote. */
  predicate WrittenTo(live: map<Variant, Price>, baseline: map<Variant, Price>, goal: map<Variant, Price>, wrote: set<Variant>) {
    live.Keys == baseline.Keys == goal.Keys && forall v :: v in live ==> live[v] == if v in wrote then goal[v] else baseline[v]
  }

  /** Every row reached by then, none refused, and all of them in the result file. */
  ghost predicate AllWell(progress: seq<Progress>, n: nat, goal: map<Variant, Price>, reported: set<Variant>) {
    NoneRefused(progress) && reported == goal.Keys && forall v :: v in goal ==> ReachedBy(progress, n, v)
  }

  lemma NothingLeft(rows: map<Variant, Row>, live: map<Variant, Price>, baseline: map<Variant, Price>, goal: map<Variant, Price>,
                    wrote: set<Variant>, reported: set<Variant>)
    requires SettledSo(rows, live, goal, wrote, reported) && WrittenTo(live, baseline, goal, wrote)
    requires goal.Keys <= wrote && reported == goal.Keys
    ensures OutstandingIn(rows) == {} && live == goal
  {
  }

  /** What the store holds and how many operations it took, after `n` looks. */
  ghost predicate SoFar(live: map<Variant, Price>, accepted: nat, baseline: map<Variant, Price>, goal: map<Variant, Price>,
                        progress: seq<Progress>, n: nat, again: set<Variant>, wrote: set<Variant>) {
    && accepted == 1 + (if again == {} then 0 else 1)
    && WrittenTo(live, baseline, goal, wrote)
    && (NoneRefused(progress) ==> forall v :: v in goal && ReachedBy(progress, n, v) ==> v in wrote)
  }

  /** After `n` looks: still refused, with nothing changed, or settled from the result. */
  ghost predicate Looked(c: BulkCampaign, shop: Shopify, baseline: map<Variant, Price>, goal: map<Variant, Price>,
                         progress: seq<Progress>, n: nat, reported: set<Variant>, refused: bool, again: set<Variant>, wrote: set<Variant>)
    reads c, shop
  {
    && (refused <==> !OverBy(progress, n))
    && (refused ==> StillSent(c, shop, baseline, goal, progress, n) && again == {})
    && (!refused ==> SettledSo(c.ledger, shop.live, goal, wrote, reported) && again == OutstandingIn(c.ledger))
    && SoFar(shop.live, shop.accepted, baseline, goal, progress, n, again, wrote)
  }

  /** One more look, and one more resume asked for. */
  method Look(c: BulkCampaign, shop: Shopify, ghost baseline: map<Variant, Price>, ghost goal: map<Variant, Price>,
              progress: seq<Progress>, n: nat, reported: set<Variant>)
    returns (refused: bool, again: set<Variant>, wrote: set<Variant>)
    requires StillSent(c, shop, baseline, goal, progress, n)
    modifies c, shop
    ensures Looked(c, shop, baseline, goal, progress, n + 1, reported, refused, again, wrote)
  {
    Wait(shop, baseline, goal, progress, n);
    wrote := shop.op.wrote;
    ResultSettles(shop.op, shop.live, goal, reported);
    refused, again := c.TryResume(shop, reported);
  }

  /** Looks again until the operation is over or patience runs out. */
  method WaitForIt(c: BulkCampaign, shop: Shopify, ghost baseline: map<Variant, Price>, ghost goal: map<Variant, Price>,
                   progress: seq<Progress>, reported: set<Variant>)
    returns (refusals: nat, settled: bool, again: set<Variant>, wrote: set<Variant>)
    requires StillSent(c, shop, baseline, goal, progress, 0)
    modifies c, shop
    ensures refusals <= PATIENCE && !OverBy(progress, refusals) && (settled || refusals == PATIENCE)
    ensures Looked(c, shop, baseline, goal, progress, refusals + 1, reported, !settled, again, wrote)
  {
    refusals := 0;
    var refused;
    refused, again, wrote := Look(c, shop, baseline, goal, progress, 0, reported);
    while refused && refusals < PATIENCE
      invariant refusals <= PATIENCE && !OverBy(progress, refusals)
      invariant Looked(c, shop, baseline, goal, progress, refusals + 1, reported, refused, again, wrote)
    {
      refusals := refusals + 1;
      refused, again, wrote := Look(c, shop, baseline, goal, progress, refusals, reported);
    }
    settled := !refused;
  }

  /**
   * The bulk script, for any prices, any pace of Shopify's and any result file. Resumes are refused
   * exactly until the operation is over, at most thirty times. Given up on, every row still reads
   * as sent and nothing went out twice. Settled, no row is pending or unreported: a row is verified
   * exactly when Shopify wrote it and says so, and then it is live; one not mentioned stays
   * outstanding. A second operation goes out exactly when some row is outstanding, and carries none
   * that landed; with every row reached, taken and reported, none does.
   */
  method BulkScript(order: seq<Variant>, baseline: map<Variant, Price>, goal: map<Variant, Price>,
                    progress: seq<Progress>, reported: set<Variant>)
    returns (refusals: nat, settled: bool, wrote: set<Variant>, ledger: map<Variant, Row>, live: map<Variant, Price>,
             accepted: nat, again: set<Variant>)
    requires Members(order) == baseline.Keys == goal.Keys
    ensures refusals <= PATIENCE && !OverBy(progress, refusals)
    ensures settled <==> OverBy(progress, refusals + 1)
    ensures !settled ==> refusals == PATIENCE && ledger == AllWriting(goal) && accepted == 1
    ensures settled ==> SettledSo(ledger, live, goal, wrote, reported) && again == OutstandingIn(ledger)
    ensures accepted == 1 + if again == {} then 0 else 1
    ensures WrittenTo(live, baseline, goal, wrote)
    ensures settled && AllWell(progress, refusals + 1, goal, reported) ==> accepted == 1 && live == goal
  {
    var shop := new Shopify(baseline);
    var c := new BulkCampaign(order);
    c.SendAndStop(goal, shop);
    refusals, settled, again, wrote := WaitForIt(c, shop, baseline, goal, progress, reported);
    ledger, live, accepted := c.ledger, shop.live, shop.accepted;
    if settled && AllWell(progress, refusals + 1, goal, reported) {
      NothingLeft(ledger, live, baseline, goal, wrote, reported);
    }
  }
}
