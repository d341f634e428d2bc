/**
 * The scheduler's leader election: workers ticking on one expiring lock. Times are integer
 * milliseconds on the lock server's clock.
 */
module Leader {
  import opened Wrappers

  type Worker = nat

  /** The lock lives twice as long as the wait between ticks, and never under thirty seconds. */
  function LockTtl(tickInterval: int): (ttl: int)
    ensures ttl >= 30000 && ttl - tickInterval >= tickInterval && (ttl > 30000 ==> ttl - tickInterval == tickInterval)
  {
    if tickInterval * 2 >= 30000 then tickInterval * 2 else 30000
  }

  datatype Held = Held(token: Worker, expires: int)

  /** The key, if it has not expired. */
  function Holder(lock: Option<Held>, now: int): Option<Worker> {
    if lock.Some? && now < lock.value.expires then Some(lock.value.token) else None
  }

  /** Set only if nobody holds it. */
  function Acquire(lock: Option<Held>, w: Worker, now: int, ttl: int): (Option<Held>, bool) {
    if Holder(lock, now).None? then (Some(Held(w, now + ttl)), true) else (lock, false)
  }

  /** Extended only by whoever holds it. */
  function Renew(lock: Option<Held>, w: Worker, now: int, ttl: int): (Option<Held>, bool) {
    if Holder(lock, now) == Some(w) then (Some(Held(w, now + ttl)), true) else (lock, false)
  }

  function Release(lock: Option<Held>, w: Worker, now: int): Option<Held> {
    if Holder(lock, now) == Some(w) then None else lock
  }

  // ------------------------------------------------------------- one grant

  /** One request to the lock server: a worker takes, extends or gives back the lock. */
  datatype Request = Take(w: Worker, at: int) | Extend(w: Worker, at: int) | GiveBack(w: Worker, at: int)

  /** The key after a request, and whether the worker was answered yes. */
  function Answered(lock: Option<Held>, q: Request, ttl: int): (Option<Held>, bool) {
    match q
    case Take(w, at) => Acquire(lock, w, at, ttl)
    case Extend(w, at) => Renew(lock, w, at, ttl)
    case GiveBack(w, at) => (Release(lock, w, at), false)
  }

  function AnsweredAll(lock: Option<Held>, qs: seq<Request>, ttl: int): Option<Held>
    decreases |qs|
  {
    if qs == [] then lock else AnsweredAll(Answered(lock, qs[0], ttl).0, qs[1..], ttl)
  }

  /** Requests made in the lifetime that follows a yes at `since`, none of them `w` giving the lock back. */
  predicate Within(qs: seq<Request>, w: Worker, since: int, ttl: int) {
    forall q :: q in qs ==> since <= q.at < since + ttl && q != GiveBack(w, q.at)
  }

  /**
   * A yes is good for a whole lifetime: until then, unless its worker gives the lock back, no request of
   * anyone else is answered yes or shortens the hold, whatever is asked and in whatever order.
   */
  lemma {:induction false} YesHoldsForALifetime(lock: Option<Held>, qs: seq<Request>, w: Worker, since: int, ttl: int)
    requires ttl > 0 && Within(qs, w, since, ttl)
    requires lock.Some? && lock.value.token == w && lock.value.expires >= since + ttl
    ensures var after := AnsweredAll(lock, qs, ttl);
            after.Some? && after.value.token == w && after.value.expires >= since + ttl
    ensures forall i :: 0 <= i < |qs| && Answered(AnsweredAll(lock, qs[..i], ttl), qs[i], ttl).1 ==> qs[i].w == w
    decreases |qs|
  {
    if qs != [] {
      assert qs[0] in qs && Within(qs[1..], w, since, ttl);
      var next := Answered(lock, qs[0], ttl).0;
      YesHoldsForALifetime(next, qs[1..], w, since, ttl);
      forall i | 0 <= i < |qs| && Answered(AnsweredAll(lock, qs[..i], ttl), qs[i], ttl).1
        ensures qs[i].w == w
      {
        if i == 0 {
          assert qs[..0] == [];
        } else {
          assert qs[..i][1..] == qs[1..][..i - 1] && qs[1..][i - 1] == qs[i];
        }
      }
    }
  }

  // ------------------------------------------------------------- interleaved

  /**
   * A worker: leading or not, inside `tick()` or not, when the lock last answered it yes, and whether
   * it has been told to stop.
   */
  datatype Status = Status(isLeader: bool, inside: bool, since: int, stopping: bool)

  datatype Cluster = Cluster(now: int, lock: Option<Held>, workers: map<Worker, Status>)

  datatype Event =
    | Passes(ms: nat)
    | Begins(w: Worker)
    | Ends(w: Worker)
    | Stops(w: Worker)
    | Crashes(w: Worker)
    | Joins(w: Worker)

  predicate Enabled(s: Cluster, e: Event) {
    match e
    case Passes(_) => true
    case Begins(w) => w in s.workers && !s.workers[w].inside && !s.workers[w].stopping
    case Ends(w) => w in s.workers && s.workers[w].inside
    case Stops(w) => w in s.workers && !s.workers[w].stopping
    case Crashes(w) => w in s.workers
    // A process that starts has a token nobody ever used.
    case Joins(w) => w !in s.workers && (s.lock.Some? ==> s.lock.value.token != w)
  }

  /** Nobody is held up: time passes, workers come with new tokens, begin when idle, end, crash and are told to stop, at any moment. */
  lemma NobodyIsHeldUp(s: Cluster, w: Worker, ms: nat)
    ensures Enabled(s, Passes(ms))
    ensures w in s.workers ==>
              && Enabled(s, Crashes(w))
              && (Enabled(s, Begins(w)) || Enabled(s, Ends(w)) || s.workers[w].stopping)
              && (Enabled(s, Ends(w)) <==> s.workers[w].inside)
              && (Enabled(s, Stops(w)) <==> !s.workers[w].stopping)
    ensures w !in s.workers && Holder(s.lock, s.now) != Some(w) && (s.lock.Some? ==> s.lock.value.token != w) ==> Enabled(s, Joins(w))
  {
  }

  /** A leader renews, another tries to take over; only one answered yes goes on to tick. */
  function BeginsOn(lock: Option<Held>, st: Status, w: Worker, now: int, ttl: int): (Option<Held>, Status) {
    var (lock', ok) := if st.isLeader then Renew(lock, w, now, ttl) else Acquire(lock, w, now, ttl);
    (lock', if ok then Status(true, true, now, st.stopping) else st.(isLeader := false))
  }

  /** Told to stop, a leader gives the lock back at once, whether or not its tick is over. */
  function StopsOn(lock: Option<Held>, st: Status, w: Worker, now: int): (Option<Held>, Status) {
    (if st.isLeader then Release(lock, w, now) else lock, st.(stopping := true))
  }

  function Step(s: Cluster, e: Event, ttl: int): Cluster
    requires Enabled(s, e)
  {
    match e
    case Passes(ms) => s.(now := s.now + ms)
    case Begins(w) =>
      var (lock, st) := BeginsOn(s.lock, s.workers[w], w, s.now, ttl);
      s.(lock := lock, workers := s.workers[w := st])
    case Ends(w) => s.(workers := s.workers[w := s.workers[w].(inside := false)])
    case Stops(w) =>
      var (lock, st) := StopsOn(s.lock, s.workers[w], w, s.now);
      s.(lock := lock, workers := s.workers[w := st])
    case Crashes(w) => s.(workers := s.workers - {w})
    case Joins(w) => s.(workers := s.workers[w := Status(false, false, s.now, false)])
  }

  /** Every tick still going began less than a lifetime of the lock ago. */
  predicate TicksInTime(s: Cluster, ttl: int) {
    forall w :: w in s.workers && s.workers[w].inside ==> s.now < s.workers[w].since + ttl
  }

  /** A worker is told to stop between its ticks. */
  predicate StopsBetweenTicks(s: Cluster, e: Event)
    requires Enabled(s, e)
  {
    e.Stops? ==> !s.workers[e.w].inside
  }

  /** A run of the cluster in which every tick ends in time and none is told to stop in its midst. */
  predicate TimelyRun(s: Cluster, es: seq<Event>, ttl: int)
    decreases |es|
  {
    TicksInTime(s, ttl) &&
    (es == [] || (Enabled(s, es[0]) && StopsBetweenTicks(s, es[0]) && TimelyRun(Step(s, es[0], ttl), es[1..], ttl)))
  }

  function After(s: Cluster, es: seq<Event>, ttl: int): Cluster
    requires TimelyRun(s, es, ttl)
    decreases |es|
  {
    if es == [] then s else After(Step(s, es[0], ttl), es[1..], ttl)
  }

  /** No two workers are inside their tick at once. */
  predicate Exclusive(s: Cluster) {
    forall v, w :: v in s.workers && w in s.workers && s.workers[v].inside && s.workers[w].inside ==> v == w
  }

  /** Whoever the lock answered yes within its lifetime still holds it, unless it was told to stop. */
  predicate HoldsWhatItTook(s: Cluster, ttl: int) {
    forall w :: w in s.workers && s.workers[w].isLeader && !s.workers[w].stopping && s.now < s.workers[w].since + ttl
      ==> s.lock == Some(Held(w, s.workers[w].since + ttl))
  }

  predicate InsideLeads(s: Cluster) {
    forall w :: w in s.workers && s.workers[w].inside ==> s.workers[w].isLeader
  }

  /** No tick goes on in a worker that was told to stop. */
  predicate NoneStopping(s: Cluster) {
    forall w :: w in s.workers && s.workers[w].inside ==> !s.workers[w].stopping
  }

  predicate Inv(s: Cluster, ttl: int) {
    HoldsWhatItTook(s, ttl) && InsideLeads(s)
  }

  lemma StepKeeps(s: Cluster, e: Event, ttl: int)
    requires ttl > 0 && Inv(s, ttl) && Enabled(s, e)
    ensures Inv(Step(s, e, ttl), ttl)
    ensures NoneStopping(s) && StopsBetweenTicks(s, e) ==> NoneStopping(Step(s, e, ttl))
  {
  }

  lemma InvIsExclusive(s: Cluster, ttl: int)
    requires Inv(s, ttl) && NoneStopping(s) && TicksInTime(s, ttl)
    ensures Exclusive(s)
  {
  }

  lemma {:induction false} RunsKeep(s: Cluster, es: seq<Event>, ttl: int)
    requires ttl > 0 && Inv(s, ttl) && NoneStopping(s) && TimelyRun(s, es, ttl)
    ensures Inv(After(s, es, ttl), ttl) && Exclusive(After(s, es, ttl))
    decreases |es|
  {
    if es == [] {
      InvIsExclusive(s, ttl);
    } else {
      StepKeeps(s, es[0], ttl);
      RunsKeep(Step(s, es[0], ttl), es[1..], ttl);
    }
  }

  /**
   * With any number of workers joining, crashing, stopping and interleaving: no two tick at once
   * while ticks end in time and no worker is told to stop in the midst of one.
   */
  lemma MutualExclusion(s: Cluster, es: seq<Event>, tickInterval: int)
    requires s.lock.None? && s.workers == map[] && TimelyRun(s, es, LockTtl(tickInterval))
    ensures Exclusive(After(s, es, LockTtl(tickInterval)))
  {
    RunsKeep(s, es, LockTtl(tickInterval));
  }

  // ------------------------------------------------------------- told to stop

  /**
   * A leader told to stop gives the lock back there and then, in its tick or not: the next worker to
   * begin leads at once, where before it would have had to wait for the lock to expire.
   */
  lemma StopHandsOver(s: Cluster, v: Worker, w: Worker, ttl: int)
    requires ttl > 0 && Inv(s, ttl) && Enabled(s, Stops(v)) && s.workers[v].isLeader && s.now < s.workers[v].since + ttl
    requires v != w && Enabled(s, Begins(w)) && !s.workers[w].isLeader
    ensures Enabled(Step(s, Stops(v), ttl), Begins(w))
    ensures Step(Step(s, Stops(v), ttl), Begins(w), ttl).workers[w] == Status(true, true, s.now, false)
    ensures !Step(s, Begins(w), ttl).workers[w].isLeader
    ensures Step(s, Stops(v), ttl).workers[v].stopping
  {
  }

  /** A token no worker has. */
  lemma {:induction false} SomeoneNew(taken: set<Worker>) returns (w: Worker)
    ensures w !in taken && forall v :: v in taken ==> v < w
  {
    if taken == {} {
      w := 0;
    } else {
      var v :| v in taken;
      w := SomeoneNew(taken - {v});
      w := if v < w then w else v + 1;
      assert forall u :: u in taken ==> u == v || u in taken - {v};
    }
  }

  /** Another worker starts, and takes the lock a tick still going has lost. */
  lemma LateStopIsJoined(s: Cluster, v: Worker, ttl: int) returns (es: seq<Event>)
    requires ttl > 0 && Inv(s, ttl) && TicksInTime(s, ttl) && Enabled(s, Stops(v)) && s.workers[v].inside
    ensures TimelyRun(Step(s, Stops(v), ttl), es, ttl) && !Exclusive(After(Step(s, Stops(v), ttl), es, ttl))
  {
    var w := SomeoneNew(s.workers.Keys);
    var s1 := Step(s, Stops(v), ttl);
    assert s1.lock.None? && s1.workers[v].inside;
    var s2 := Step(s1, Joins(w), ttl);
    var s3 := Step(s2, Begins(w), ttl);
    es := [Joins(w), Begins(w)];
    assert es[1..] == [Begins(w)] && [Begins(w)][1..] == [];
    assert s3.workers[v].inside && s3.workers[w].inside && v != w;
    assert TimelyRun(s3, [], ttl) && After(s3, [], ttl) == s3;
    assert TimelyRun(s2, [Begins(w)], ttl) && After(s2, [Begins(w)], ttl) == s3;
    assert TimelyRun(s1, es, ttl) && After(s1, es, ttl) == s3;
  }

  /**
   * Telling a worker to stop is safe exactly between its ticks: then no two tick at once whatever
   * follows, and in the midst of one another can tick beside it at once, well within the lock's life.
   */
  lemma StopIsSafeExactly(s: Cluster, v: Worker, ttl: int)
    requires ttl > 0 && Inv(s, ttl) && NoneStopping(s) && TicksInTime(s, ttl) && Enabled(s, Stops(v))
    ensures (forall es :: TimelyRun(Step(s, Stops(v), ttl), es, ttl) ==> Exclusive(After(Step(s, Stops(v), ttl), es, ttl)))
            <==> !s.workers[v].inside
  {
    var s1 := Step(s, Stops(v), ttl);
    if s.workers[v].inside {
      var es := LateStopIsJoined(s, v, ttl);
    } else {
      StepKeeps(s, Stops(v), ttl);
      forall es | TimelyRun(s1, es, ttl)
        ensures Exclusive(After(s1, es, ttl))
      {
        RunsKeep(s1, es, ttl);
      }
    }
  }

  /**
   * And the bound is exact: once a tick has outlived its lock, any other worker that begins ticks
   * beside it.
   */
  lemma OverrunningTickIsJoined(s: Cluster, v: Worker, w: Worker, ttl: int)
    requires ttl > 0 && Inv(s, ttl) && v in s.workers && w in s.workers && v != w
    requires s.workers[v].inside && !s.workers[w].inside && !s.workers[w].isLeader && !s.workers[w].stopping
    requires s.lock == Some(Held(v, s.workers[v].since + ttl))
    ensures Exclusive(Step(s, Begins(w), ttl)) ==> s.now < s.workers[v].since + ttl
    ensures s.now >= s.workers[v].since + ttl ==>
              Step(s, Begins(w), ttl).workers[w].inside && Step(s, Begins(w), ttl).workers[v].inside
  {
    if s.now >= s.workers[v].since + ttl {
      var s' := Step(s, Begins(w), ttl);
      assert s'.workers[v].inside && s'.workers[w].inside;
    }
  }

  // ---------------------------------------------------------- staying leader

  /** Worker `w` stays up and begins again, each time less than a lock's lifetime after its last yes. */
  predicate Keeps(s: Cluster, es: seq<Event>, w: Worker, ttl: int)
    decreases |es|
  {
    es == [] ||
    (Enabled(s, es[0]) && es[0] != Crashes(w) && es[0] != Stops(w)
     && (es[0] == Begins(w) && w in s.workers ==> s.now < s.workers[w].since + ttl)
     && Keeps(Step(s, es[0], ttl), es[1..], w, ttl))
  }

  function AfterAny(s: Cluster, es: seq<Event>, w: Worker, ttl: int): Cluster
    requires Keeps(s, es, w, ttl)
    decreases |es|
  {
    if es == [] then s else AfterAny(Step(s, es[0], ttl), es[1..], w, ttl)
  }

  /**
   * A leader that comes back in time always renews, whatever the other workers do and however late
   * they are: it leads at every moment after.
   */
  lemma {:induction false} LeaderKeepsLeading(s: Cluster, es: seq<Event>, w: Worker, ttl: int)
    requires ttl > 0 && Inv(s, ttl) && w in s.workers && s.workers[w].isLeader && !s.workers[w].stopping && Keeps(s, es, w, ttl)
    ensures w in AfterAny(s, es, w, ttl).workers && AfterAny(s, es, w, ttl).workers[w].isLeader
    decreases |es|
  {
    if es != [] {
      StepKeeps(s, es[0], ttl);
      LeaderKeepsLeading(Step(s, es[0], ttl), es[1..], w, ttl);
    }
  }

  /**
   * The worker's own timing: a `runOnce` shorter than the lock's lifetime less one interval, and
   * one interval's sleep, brings it back in time. The lifetime leaves it at least an interval.
   */
  lemma ComesBackInTime(tickInterval: int, since: int, ended: int, again: int)
    requires tickInterval > 0 && ended - since < LockTtl(tickInterval) - tickInterval && again == ended + tickInterval
    ensures again < since + LockTtl(tickInterval)
    ensures LockTtl(tickInterval) - tickInterval >= tickInterval && LockTtl(tickInterval) >= 30000
  {
  }

  /**
   * Worker `w` stays up and runs its loop: each `runOnce` ends in under the lock's lifetime less one
   * interval, and it begins again one interval after. `ended` is when its last one did.
   */
  predicate Punctual(s: Cluster, es: seq<Event>, w: Worker, ended: int, tickInterval: int)
    decreases |es|
  {
    es == [] ||
    (Enabled(s, es[0]) && es[0] != Crashes(w) && es[0] != Stops(w)
     && (es[0] == Ends(w) ==> s.now - s.workers[w].since < LockTtl(tickInterval) - tickInterval)
     && (es[0] == Begins(w) ==> s.now == ended + tickInterval)
     && Punctual(Step(s, es[0], LockTtl(tickInterval)), es[1..], w, if es[0] == Ends(w) then s.now else ended, tickInterval))
  }

  lemma {:induction false} PunctualComesBack(s: Cluster, es: seq<Event>, w: Worker, ended: int, tickInterval: int)
    requires tickInterval > 0 && Inv(s, LockTtl(tickInterval)) && w in s.workers && s.workers[w].isLeader && !s.workers[w].stopping
    requires Punctual(s, es, w, ended, tickInterval)
    requires s.workers[w].inside || ended - s.workers[w].since < LockTtl(tickInterval) - tickInterval
    ensures Keeps(s, es, w, LockTtl(tickInterval))
    decreases |es|
  {
    if es != [] {
      var ttl := LockTtl(tickInterval);
      StepKeeps(s, es[0], ttl);
      if es[0] == Begins(w) {
        ComesBackInTime(tickInterval, s.workers[w].since, ended, s.now);
      }
      PunctualComesBack(Step(s, es[0], ttl), es[1..], w, if es[0] == Ends(w) then s.now else ended, tickInterval);
    }
  }

  /** So a leader whose loop is punctual renews every time and goes on leading, whatever the others do. */
  lemma PunctualLeaderKeepsLeading(s: Cluster, es: seq<Event>, w: Worker, tickInterval: int)
    requires tickInterval > 0 && Inv(s, LockTtl(tickInterval))
    requires w in s.workers && s.workers[w].isLeader && s.workers[w].inside && !s.workers[w].stopping
    requires Punctual(s, es, w, s.now, tickInterval)
    ensures Keeps(s, es, w, LockTtl(tickInterval))
    ensures var after := AfterAny(s, es, w, LockTtl(tickInterval));
            w in after.workers && after.workers[w].isLeader
  {
    PunctualComesBack(s, es, w, s.now, tickInterval);
    LeaderKeepsLeading(s, es, w, LockTtl(tickInterval));
  }

  // ------------------------------------------------------------ as it is run

  /** The lock server, one key. */
  class LockServer {
    var key: Option<Held>

    constructor ()
      ensures key == None
    {
      key := None;
    }

    method SetIfAbsent(w: Worker, now: int, ttl: int) returns (ok: bool)
      modifies this
      ensures (key, ok) == Acquire(old(key), w, now, ttl)
    {
      if key.Some? && now < key.value.expires {
        return false;
      }
      key := Some(Held(w, now + ttl));
      ok := true;
    }

    method ExtendIfMine(w: Worker, now: int, ttl: int) returns (ok: bool)
      modifies this
      ensures (key, ok) == Renew(old(key), w, now, ttl)
    {
      ok := key.Some? && now < key.value.expires && key.value.token == w;
      if ok {
        key := Some(Held(w, now + ttl));
      }
    }

    method DeleteIfMine(w: Worker, now: int)
      modifies this
      ensures key == Release(old(key), w, now)
    {
      if key.Some? && now < key.value.expires && key.value.token == w {
        key := None;
      }
    }
  }

  /** One worker process: whether it leads, is inside its tick, and has been told to stop. */
  class WorkerProcess {
    const id: Worker
    const ttl: int
    var isLeader: bool
    var inside: bool
    var since: int
    var running: bool

    constructor (id: Worker, ttl: int, now: int)
      ensures this.id == id && this.ttl == ttl && Now() == Status(false, false, now, false)
    {
      this.id := id;
      this.ttl := ttl;
      isLeader, inside, since, running := false, false, now, true;
    }

    function Now(): Status
      reads this
    {
      Status(isLeader, inside, since, !running)
    }

    /** Renews if it leads, otherwise tries to take over; only a leader goes on to tick. */
    method BeginTick(server: LockServer, now: int)
      requires running && !inside
      modifies this, server
      ensures (server.key, Now()) == BeginsOn(old(server.key), old(Now()), id, now, ttl)
    {
      if isLeader {
        isLeader := server.ExtendIfMine(id, now, ttl);
      } else {
        isLeader := server.SetIfAbsent(id, now, ttl);
      }
      if isLeader {
        inside, since := true, now;
      }
    }

    method EndTick()
      modifies this
      ensures Now() == old(Now()).(inside := false)
    {
      inside := false;
    }

    method Shutdown(server: LockServer, now: int)
      modifies this, server
      ensures (server.key, Now()) == StopsOn(old(server.key), old(Now()), id, now)
    {
      running := false;
      if isLeader {
        server.DeleteIfMine(id, now);
      }
    }
  }

  /** The processes and the lock between them, as they stand. */
  ghost predicate Stand(s: Cluster, server: LockServer, procs: map<Worker, WorkerProcess>, ttl: int)
    reads server, procs.Values
  {
    && s.lock == server.key && s.workers.Keys == procs.Keys
    && (forall w :: w in procs ==> procs[w].id == w && procs[w].ttl == ttl && procs[w].Now() == s.workers[w])
    && (forall v, w :: v in procs && w in procs && v != w ==> procs[v] != procs[w])
  }

  /** One process doing something of its own. */
  method Act(ghost s: Cluster, e: Event, server: LockServer, procs: map<Worker, WorkerProcess>, now: int, ttl: int)
    requires Stand(s, server, procs, ttl) && s.now == now && Enabled(s, e) && (e.Begins? || e.Ends? || e.Stops?)
    modifies server, procs.Values
    ensures Stand(Step(s, e, ttl), server, procs, ttl)
  {
    match e {
      case Begins(w) => procs[w].BeginTick(server, now);
      case Ends(w) => procs[w].EndTick();
      case Stops(w) => procs[w].Shutdown(server, now);
    }
  }

  /** One thing happening to one of the processes. */
  method Happen(ghost s: Cluster, e: Event, server: LockServer, procs: map<Worker, WorkerProcess>, now: int, ttl: int)
    returns (procs': map<Worker, WorkerProcess>, now': int)
    requires Stand(s, server, procs, ttl) && s.now == now && Enabled(s, e)
    modifies server, procs.Values
    ensures Stand(Step(s, e, ttl), server, procs', ttl) && Step(s, e, ttl).now == now'
    ensures forall w :: w in procs' ==> (w in procs && procs'[w] == procs[w]) || fresh(procs'[w])
  {
    procs', now' := procs, now;
    match e {
      case Passes(ms) => now' := now + ms;
      case Crashes(w) => procs' := procs - {w};
      case Joins(w) =>
        var p := new WorkerProcess(w, ttl, now);
        procs' := procs[w := p];
      case _ => Act(s, e, server, procs, now, ttl);
    }
  }

  /**
   * Any number of worker processes around one lock, doing whatever they do in whatever order: at
   * most one is inside its tick, at the end and so at every moment.
   */
  method Race(start: int, es: seq<Event>, tickInterval: int) returns (inside: set<Worker>)
    requires TimelyRun(Cluster(start, None, map[]), es, LockTtl(tickInterval))
    ensures forall w :: w in inside <==>
              w in After(Cluster(start, None, map[]), es, LockTtl(tickInterval)).workers
              && After(Cluster(start, None, map[]), es, LockTtl(tickInterval)).workers[w].inside
    ensures forall v, w :: v in inside && w in inside ==> v == w
  {
    var ttl := LockTtl(tickInterval);
    var server := new LockServer();
    var procs: map<Worker, WorkerProcess> := map[];
    var now := start;
    ghost var s0 := Cluster(start, None, map[]);
    ghost var s := s0;
    for i := 0 to |es|
      invariant fresh(server) && forall w :: w in procs ==> fresh(procs[w])
      invariant Stand(s, server, procs, ttl) && s.now == now
      invariant TimelyRun(s, es[i..], ttl) && After(s, es[i..], ttl) == After(s0, es, ttl)
    {
      assert es[i..][0] == es[i] && es[i..][1..] == es[i + 1..];
      procs, now := Happen(s, es[i], server, procs, now, ttl);
      s := Step(s, es[i], ttl);
    }
    assert es[|es|..] == [];
    inside := set w | w in procs && procs[w].inside;
    MutualExclusion(s0, es, tickInterval);
  }
}
