/** Committing a price import: its segment and its campaign, or neither and not the import either. */
module ImportSaga {
  import opened Wrappers
  import opened Numerals

  type Id = nat

  datatype Segment = Segment(name: string, variants: set<nat>)

  datatype Campaign = Campaign(name: string, segmentId: Id, importId: Id)

  /** The tables the commit touches; ids are never handed out twice. */
  datatype Tables = Tables(imports: map<Id, set<nat>>, segments: map<Id, Segment>, campaigns: map<Id, Campaign>,
                           audit: set<Id>, nextId: Id)

  datatype Await = ReadNames | ReadVariants | CreateSegment | CreateCampaign | WriteAudit

  /** One await fails; a write that fails may have landed first. */
  datatype Fault = NoFault | FaultAt(await: Await, landed: bool)

  predicate Ordered(t: Tables) {
    && (forall id :: id in t.imports ==> id < t.nextId)
    && (forall id :: id in t.segments ==> id < t.nextId)
    && (forall id :: id in t.campaigns ==> id < t.nextId)
  }

  // ------------------------------------------------------------ a free name

  function NumberedName(name: string, n: nat): string {
    if n <= 1 then name + " (imported)" else name + " (imported " + Numeral(n) + ")"
  }

  lemma NamesDiffer(name: string, m: nat, n: nat)
    requires 1 <= m < n
    ensures NumberedName(name, m) != NumberedName(name, n)
  {
    var a, b := NumberedName(name, m), NumberedName(name, n);
    if m == 1 {
      var at := |name + " (imported"|;
      assert a[at] == ')' && b[at] == ' ';
    } else {
      var from := |name + " (imported "|;
      assert a[from..|a| - 1] == Numeral(m) && b[from..|b| - 1] == Numeral(n);
      NumeralsDiffer(m, n);
    }
  }

  /** Names 1 to `n` take `n` names. */
  function NamesUpTo(name: string, n: nat): set<string> {
    if n == 0 then {} else NamesUpTo(name, n - 1) + {NumberedName(name, n)}
  }

  lemma {:induction false} NamesUpToCount(name: string, n: nat)
    ensures |NamesUpTo(name, n)| == n
    ensures forall s :: s in NamesUpTo(name, n) <==> exists m :: 1 <= m <= n && s == NumberedName(name, m)
  {
    if n > 0 {
      NamesUpToCount(name, n - 1);
      forall m | 1 <= m < n
        ensures NumberedName(name, m) != NumberedName(name, n)
      {
        NamesDiffer(name, m, n);
      }
    }
  }

  /** Only so many names can be taken. */
  lemma NamesTaken(name: string, n: nat, used: set<string>)
    requires forall m :: 1 <= m <= n ==> NumberedName(name, m) in used
    ensures n <= |used|
  {
    NamesUpToCount(name, n);
    var taken := NamesUpTo(name, n);
    assert taken <= used;
    assert used == taken + (used - taken);
  }

  /** The first "(imported)" name nobody has: the plain one, then numbered from two. */
  method ImportSegmentName(name: string, used: set<string>) returns (free: string, ghost number: nat)
    ensures free !in used && number >= 1 && free == NumberedName(name, number)
    ensures forall m :: 1 <= m < number ==> NumberedName(name, m) in used
  {
    free, number := NumberedName(name, 1), 1;
    if free !in used {
      return;
    }
    var n := 2;
    while true
      invariant n >= 2 && forall m :: 1 <= m < n ==> NumberedName(name, m) in used
      decreases |used| + 2 - n
    {
      NamesTaken(name, n - 1, used);
      free, number := NumberedName(name, n), n;
      if free !in used {
        return;
      }
      n := n + 1;
    }
  }

  // --------------------------------------------------------------- the commit

  /** The import, its segment and its campaign, each naming the others. */
  predicate Linked(t: Tables, importId: Id, segmentId: Id, campaignId: Id) {
    && importId in t.imports && segmentId in t.segments && campaignId in t.campaigns
    && t.campaigns[campaignId].segmentId == segmentId && t.campaigns[campaignId].importId == importId
    && t.segments[segmentId].variants == t.imports[importId]
  }

  /** No fault, or one the compensation makes good: a read, or a write that did not land. */
  predicate Recoverable(f: Fault) {
    f.NoFault? || f.await == ReadNames || f.await == ReadVariants
    || ((f.await == CreateSegment || f.await == CreateCampaign) && !f.landed)
  }

  /** The first of the numbered names that no segment has. */
  ghost predicate FirstFree(name: string, segments: map<Id, Segment>, free: string) {
    && !Named(segments, free)
    && exists n: nat :: n >= 1 && free == NumberedName(name, n) && forall m: nat :: 1 <= m < n ==> Named(segments, NumberedName(name, m))
  }

  /** Some segment has that name. */
  predicate Named(segments: map<Id, Segment>, name: string) {
    exists s :: s in segments && segments[s].name == name
  }

  lemma FreeIsFirst(name: string, segments: map<Id, Segment>, free: string, n: nat)
    requires var used := set id | id in segments :: segments[id].name;
             free !in used && n >= 1 && free == NumberedName(name, n) && forall m :: 1 <= m < n ==> NumberedName(name, m) in used
    ensures FirstFree(name, segments, free)
  {
    var used := set id | id in segments :: segments[id].name;
    assert forall taken :: taken in used <==> Named(segments, taken);
  }

  class Database {
    var t: Tables

    constructor (t: Tables)
      ensures this.t == t
    {
      this.t := t;
    }

    method InsertSegment(segment: Segment) returns (id: Id)
      modifies this
      ensures id == old(t).nextId
      ensures t == old(t).(segments := old(t).segments[id := segment], nextId := id + 1)
    {
      id := t.nextId;
      t := t.(segments := t.segments[id := segment], nextId := id + 1);
    }

    method InsertCampaign(campaign: Campaign) returns (id: Id)
      modifies this
      ensures id == old(t).nextId
      ensures t == old(t).(campaigns := old(t).campaigns[id := campaign], nextId := id + 1)
    {
      id := t.nextId;
      t := t.(campaigns := t.campaigns[id := campaign], nextId := id + 1);
    }

    /** The catch: the segment if one is known of, then the import. */
    method Compensate(segmentId: Option<Id>, importId: Id)
      modifies this
      ensures t == old(t).(segments := if segmentId.Some? then old(t).segments - {segmentId.value} else old(t).segments,
                           imports := old(t).imports - {importId})
    {
      if segmentId.Some? {
        t := t.(segments := t.segments - {segmentId.value});
      }
      t := t.(imports := t.imports - {importId});
    }

    /**
     * The commit, after the import's own rows are in. Without a fault the three are there and
     * linked; with one the compensation covers, none is and everything else is as it was.
     */
    method Commit(name: string, importId: Id, fault: Fault) returns (ok: bool, segmentId: Option<Id>, campaignId: Option<Id>)
      requires Ordered(t) && importId in t.imports
      modifies this
      ensures ok <==> fault.NoFault?
      ensures ok ==> segmentId.Some? && campaignId.Some? && Linked(t, importId, segmentId.value, campaignId.value)
      ensures ok ==> t.imports == old(t).imports && t.segments - {segmentId.value} == old(t).segments
                     && t.campaigns - {campaignId.value} == old(t).campaigns
                     && segmentId.value !in old(t).segments && campaignId.value !in old(t).campaigns
                     && t.audit == old(t).audit + {campaignId.value}
                     && t.campaigns[campaignId.value].name == name
                     && FirstFree(name, old(t).segments, t.segments[segmentId.value].name)
      ensures !ok ==> t.imports == old(t).imports - {importId}
      ensures !ok && Recoverable(fault) ==>
                t.segments == old(t).segments && t.campaigns == old(t).campaigns && t.audit == old(t).audit
      ensures !ok && !Recoverable(fault) ==> LeftBehind(old(t), t, importId, fault)
    {
      segmentId, campaignId := None, None;
      ok := false;
      if fault.FaultAt? && fault.await == ReadNames {
        Compensate(segmentId, importId);
        return;
      }
      var used := set id | id in t.segments :: t.segments[id].name;
      var free, number := ImportSegmentName(name, used);
      FreeIsFirst(name, t.segments, free, number);
      if fault.FaultAt? && fault.await == ReadVariants {
        Compensate(segmentId, importId);
        return;
      }
      var segment := Segment(free, t.imports[importId]);
      if fault.FaultAt? && fault.await == CreateSegment {
        // The insert failed, landed or not: its id never came back.
        if fault.landed {
          var lost := InsertSegment(segment);
          SegmentLeft(old(t), t.(imports := t.imports - {importId}), importId, fault, lost, segment);
        }
        Compensate(segmentId, importId);
        return;
      }
      var sid := InsertSegment(segment);
      segmentId := Some(sid);
      var campaign := Campaign(name, sid, importId);
      if fault.FaultAt? && fault.await == CreateCampaign {
        if fault.landed {
          var lost := InsertCampaign(campaign);
          CampaignLeft(old(t), Compensated(t, sid, importId), importId, fault, lost, campaign);
        }
        Compensate(segmentId, importId);
        assert t.segments == old(t).segments;
        return;
      }
      var cid := InsertCampaign(campaign);
      campaignId := Some(cid);
      if fault.FaultAt? {
        // The audit entry is written after the campaign, not with it.
        if fault.landed {
          t := t.(audit := t.audit + {cid});
        }
        CampaignLeft(old(t), Compensated(t, sid, importId), importId, fault, cid, campaign);
        Compensate(segmentId, importId);
        return;
      }
      t := t.(audit := t.audit + {cid});
      ok := true;
    }
  }

  /** A row of the saga that outlived the compensation, pointing at what is gone. */
  predicate LeftBehind(was: Tables, now: Tables, importId: Id, fault: Fault) {
    if fault.FaultAt? && fault.await == CreateSegment then
      && now.campaigns == was.campaigns && now.audit == was.audit
      && exists s :: s in now.segments && s !in was.segments && now.segments - {s} == was.segments
    else
      && now.segments == was.segments
      && exists c :: c in now.campaigns && c !in was.campaigns && now.campaigns - {c} == was.campaigns
                  && now.campaigns[c].importId == importId && importId !in now.imports && now.campaigns[c].segmentId !in now.segments
                  && now.audit == was.audit + if fault == FaultAt(WriteAudit, true) then {c} else {}
  }

  function Compensated(t: Tables, segmentId: Id, importId: Id): Tables {
    t.(segments := t.segments - {segmentId}, imports := t.imports - {importId})
  }

  lemma SegmentLeft(was: Tables, now: Tables, importId: Id, fault: Fault, id: Id, segment: Segment)
    requires id !in was.segments && now.segments == was.segments[id := segment] && fault == FaultAt(CreateSegment, true)
    requires now.campaigns == was.campaigns && now.audit == was.audit
    ensures LeftBehind(was, now, importId, fault)
  {
    assert now.segments - {id} == was.segments;
  }

  lemma CampaignLeft(was: Tables, now: Tables, importId: Id, fault: Fault, id: Id, campaign: Campaign)
    requires id !in was.campaigns && now.campaigns == was.campaigns[id := campaign] && campaign.importId == importId
    requires fault.FaultAt? && fault.await != CreateSegment && now.segments == was.segments && importId !in now.imports
    requires campaign.segmentId !in was.segments && now.audit == was.audit + if fault == FaultAt(WriteAudit, true) then {id} else {}
    ensures LeftBehind(was, now, importId, fault)
  {
    assert now.campaigns - {id} == was.campaigns;
  }

  /** None of the three is left, and everything else is as it was. */
  predicate NoneLeft(was: Tables, now: Tables, importId: Id) {
    && now.imports == was.imports - {importId} && now.segments == was.segments && now.campaigns == was.campaigns
  }

  /**
   * A commit that fails leaves nothing of itself exactly when the fault is one the compensation
   * covers. A failed audit entry is not: the campaign stays, over a segment and an import that are
   * gone.
   */
  method NothingLeftExactly(name: string, importId: Id, fault: Fault, start: Tables) returns (end: Tables)
    requires Ordered(start) && importId in start.imports && fault.FaultAt?
    ensures NoneLeft(start, end, importId) <==> Recoverable(fault)
  {
    var db := new Database(start);
    var ok, segmentId, campaignId := db.Commit(name, importId, fault);
    end := db.t;
  }
}
