/**
 * The polling hooks: following a job that runs in the worker, and reloading the page once when it
 * ends. A recapture is followed by its id; a sync has none.
 */
module Polling {
  import opened Wrappers

  type JobId = nat

  /** What the status route says: which job, and whether it is still running. */
  datatype Answer = Answer(id: JobId, running: bool)

  /** A poll, and the job being followed when it was asked, counted by how often that has changed. */
  datatype Request = Request(following: JobId, epoch: nat)

  /**
   * `asked` is the ref the timer sets and the effects clear. A fetcher keeps its last answer, and a
   * new load hides it until its own arrives. `epoch`, `ticks` and `reloads` are counted, not kept
   * by the hook.
   */
  datatype Hook = Hook(followed: Option<JobId>, asked: bool,
                       loading: Option<Request>, heard: Option<(Answer, Request)>,
                       busy: bool, epoch: nat, ticks: nat, reloads: nat)

  function Polled(h: Hook): Option<Answer> {
    if h.loading.None? && h.heard.Some? then Some(h.heard.value.0) else None
  }

  /** A recapture's end: what was polled is about it, and says so. */
  predicate RecaptureEnded(followed: Option<JobId>, polled: Option<Answer>, asked: bool) {
    asked && followed.Some? && polled.Some? && polled.value.id == followed.value && !polled.value.running
  }

  /** A sync's, which no answer names. */
  predicate SyncEnded(followed: Option<JobId>, polled: Option<Answer>, asked: bool) {
    asked && followed.Some? && polled.Some? && !polled.value.running
  }

  predicate Ended(byId: bool, h: Hook) {
    if byId then RecaptureEnded(h.followed, Polled(h), h.asked) else SyncEnded(h.followed, Polled(h), h.asked)
  }

  datatype Event = Follow(job: Option<JobId>) | Tick | Arrive(answer: Answer) | Render(reloading: bool) | Settle

  predicate Enabled(h: Hook, e: Event) {
    match e
    case Follow(job) => job != h.followed
    case Tick => h.followed.Some?
    case Arrive(_) => h.loading.Some?
    case _ => true
  }

  /**
   * Whether the timer's effect starts again when the followed job changes. A recapture's is keyed on
   * its id. A sync's is keyed on whether one is running, so one running sync after another is no change.
   */
  predicate Restarts(byId: bool, followed: Option<JobId>, job: Option<JobId>) {
    byId || followed.None? || job.None?
  }

  /** One thing happening to a mounted hook. A render's effect acts only while no reload is going. */
  function Step(byId: bool, h: Hook, e: Event): Hook
    requires Enabled(h, e)
  {
    match e
    case Follow(job) => h.(followed := job, asked := h.asked && !Restarts(byId, h.followed, job), epoch := h.epoch + 1)
    case Tick => h.(asked := true, loading := Some(Request(h.followed.value, h.epoch)), ticks := h.ticks + 1)
    case Arrive(answer) => h.(loading := None, heard := Some((answer, h.loading.value)))
    case Render(reloading) =>
      if Reloads(byId, h) then h.(asked := false, busy := reloading, reloads := h.reloads + 1) else h
    case Settle => h.(busy := false)
  }

  const MOUNTED := Hook(None, false, None, None, false, 0, 0, 0)

  /** The render reloads the page. */
  predicate Reloads(byId: bool, h: Hook) {
    Ended(byId, h) && !h.busy
  }

  // ---------------------------------------------------------- one reload a poll

  /** A hook that has asked waits for an answer or has heard one, and every reload used up a poll. */
  predicate Counted(h: Hook) {
    && (h.asked ==> h.followed.Some? && (h.loading.None? ==> h.heard.Some?))
    && h.reloads + (if h.asked then 1 else 0) <= h.ticks
  }

  lemma StepCounts(byId: bool, h: Hook, e: Event)
    requires Counted(h) && Enabled(h, e)
    ensures Counted(Step(byId, h, e))
    ensures Step(byId, h, e).reloads == h.reloads + if e.Render? && Reloads(byId, h) then 1 else 0
  {
  }

  predicate Runs(byId: bool, h: Hook, es: seq<Event>)
    decreases |es|
  {
    es == [] || (Enabled(h, es[0]) && Runs(byId, Step(byId, h, es[0]), es[1..]))
  }

  function After(byId: bool, h: Hook, es: seq<Event>): Hook
    requires Runs(byId, h, es)
    decreases |es|
  {
    if es == [] then h else After(byId, Step(byId, h, es[0]), es[1..])
  }

  function Ticks(es: seq<Event>): nat {
    if es == [] then 0 else (if es[0].Tick? then 1 else 0) + Ticks(es[1..])
  }

  /**
   * Over every interleaving of ticks, late answers, renders and new jobs, a stretch of events reloads
   * at most once more than it polls, and not at all when nothing had been asked and nothing is.
   */
  lemma {:induction false} NoReloadLoop(byId: bool, h: Hook, es: seq<Event>)
    requires Counted(h) && Runs(byId, h, es)
    ensures Counted(After(byId, h, es))
    ensures After(byId, h, es).reloads - h.reloads + (if After(byId, h, es).asked then 1 else 0)
            <= Ticks(es) + if h.asked then 1 else 0
    decreases |es|
  {
    if es != [] {
      StepCounts(byId, h, es[0]);
      NoReloadLoop(byId, Step(byId, h, es[0]), es[1..]);
    }
  }

  lemma MountedHookNeverLoops(byId: bool, es: seq<Event>)
    requires Runs(byId, MOUNTED, es)
    ensures After(byId, MOUNTED, es).reloads <= Ticks(es)
  {
    NoReloadLoop(byId, MOUNTED, es);
  }

  lemma {:induction false} NeverFewer(byId: bool, h: Hook, es: seq<Event>)
    requires Runs(byId, h, es)
    ensures After(byId, h, es).reloads >= h.reloads
    decreases |es|
  {
    if es != [] {
      NeverFewer(byId, Step(byId, h, es[0]), es[1..]);
    }
  }

  // ------------------------------------------------------------- fresh answers

  /** What the hook waits for, or has heard, is an answer to a poll about the job it follows now. */
  predicate Fresh(h: Hook) {
    h.asked ==>
      && (h.loading.Some? ==> h.followed == Some(h.loading.value.following) && h.loading.value.epoch == h.epoch)
      && (h.loading.None? && h.heard.Some? ==>
            h.followed == Some(h.heard.value.1.following) && h.heard.value.1.epoch == h.epoch)
  }

  /** A change of job that a hook still waiting does not notice: one sync straight after another. */
  predicate Carries(byId: bool, h: Hook, e: Event) {
    e.Follow? && h.asked && !Restarts(byId, h.followed, e.job)
  }

  /** A step keeps a hook's answers fresh exactly when it is not such a change; a recapture's never is. */
  lemma FreshUnlessCarried(byId: bool, h: Hook, e: Event)
    requires Counted(h) && Fresh(h) && Enabled(h, e)
    ensures Fresh(Step(byId, h, e)) <==> !Carries(byId, h, e)
    ensures byId ==> Fresh(Step(byId, h, e))
  {
  }

  /**
   * A reload of a hook whose answers are fresh acts on one asked for since the followed job began,
   * that says it is over, and, for a recapture, on one about that very job.
   */
  lemma ReloadsOnAFreshAnswer(byId: bool, h: Hook)
    requires Counted(h) && Fresh(h) && Reloads(byId, h)
    ensures h.heard.Some? && h.heard.value.1.epoch == h.epoch && !h.heard.value.0.running
    ensures h.followed == Some(h.heard.value.1.following)
    ensures byId ==> h.followed == Some(h.heard.value.0.id)
  {
  }

  /** Every reload in a stretch of events acts on an answer to a poll about the job then followed. */
  predicate ReloadsFresh(byId: bool, h: Hook, es: seq<Event>)
    requires Runs(byId, h, es)
    decreases |es|
  {
    es == [] ||
    ((es[0].Render? && Reloads(byId, h) ==> h.heard.Some? && h.heard.value.1.epoch == h.epoch)
     && ReloadsFresh(byId, Step(byId, h, es[0]), es[1..]))
  }

  predicate NoneCarried(byId: bool, h: Hook, es: seq<Event>)
    requires Runs(byId, h, es)
    decreases |es|
  {
    es == [] || (!Carries(byId, h, es[0]) && NoneCarried(byId, Step(byId, h, es[0]), es[1..]))
  }

  /** Over every interleaving in which no change goes unnoticed, every reload acts on a fresh answer. */
  lemma {:induction false} EveryReloadIsFresh(byId: bool, h: Hook, es: seq<Event>)
    requires Counted(h) && Fresh(h) && Runs(byId, h, es) && NoneCarried(byId, h, es)
    ensures ReloadsFresh(byId, h, es) && Fresh(After(byId, h, es))
    decreases |es|
  {
    if es != [] {
      StepCounts(byId, h, es[0]);
      FreshUnlessCarried(byId, h, es[0]);
      EveryReloadIsFresh(byId, Step(byId, h, es[0]), es[1..]);
    }
  }

  /** A recapture's changes are all noticed. */
  lemma {:induction false} RecaptureIsAlwaysFresh(h: Hook, es: seq<Event>)
    requires Counted(h) && Fresh(h) && Runs(true, h, es)
    ensures NoneCarried(true, h, es) && ReloadsFresh(true, h, es)
    decreases |es|
  {
    if es != [] {
      StepCounts(true, h, es[0]);
      FreshUnlessCarried(true, h, es[0]);
      RecaptureIsAlwaysFresh(Step(true, h, es[0]), es[1..]);
    }
  }

  // ------------------------------------------------------ one sync after another

  /** Nothing stale can still be acted on: no old poll is in flight, and none heard said "over". */
  predicate Safe(h: Hook) {
    h.asked ==>
      && (h.loading.Some? ==> h.loading.value.epoch == h.epoch)
      && (h.loading.None? && h.heard.Some? ==> h.heard.value.1.epoch == h.epoch || h.heard.value.0.running)
  }

  predicate SameJob(es: seq<Event>) {
    forall e :: e in es ==> !e.Follow?
  }

  lemma {:induction false} SafeReloadsFresh(byId: bool, h: Hook, es: seq<Event>)
    requires Counted(h) && Safe(h) && Runs(byId, h, es) && SameJob(es)
    ensures ReloadsFresh(byId, h, es)
    decreases |es|
  {
    if es != [] {
      assert es[0] in es;
      StepCounts(byId, h, es[0]);
      SafeReloadsFresh(byId, Step(byId, h, es[0]), es[1..]);
    }
  }

  /** The late answer, and the render that acts on it. */
  function LateAnswer(h: Hook): seq<Event> {
    [Settle] + (if h.loading.Some? then [Arrive(Answer(0, false))] else []) + [Render(false)]
  }

  lemma LateAnswerReloads(h: Hook)
    requires Counted(h) && !Safe(h)
    ensures Runs(false, h, LateAnswer(h)) && SameJob(LateAnswer(h)) && Ticks(LateAnswer(h)) == 0
    ensures !ReloadsFresh(false, h, LateAnswer(h))
    ensures After(false, h, LateAnswer(h)).reloads == h.reloads + 1
  {
    var es, h1 := LateAnswer(h), Step(false, h, Settle);
    if h.loading.Some? {
      var rest := [Arrive(Answer(0, false)), Render(false)];
      var h2 := Step(false, h1, rest[0]);
      assert es[1..] == rest && rest[1..] == [Render(false)];
      assert Reloads(false, h2) && Runs(false, h2, [Render(false)]) && !ReloadsFresh(false, h2, [Render(false)]);
      assert Runs(false, h1, rest) && !ReloadsFresh(false, h1, rest) && Ticks(rest) == Ticks([Render(false)]) == 0;
      assert After(false, h1, rest) == After(false, h2, [Render(false)]) == Step(false, h2, Render(false));
    } else {
      assert es == [Settle, Render(false)] && es[1..] == [Render(false)];
      assert Reloads(false, h1) && Runs(false, h1, [Render(false)]);
    }
  }

  /**
   * While one sync is followed, its hook acts on fresh answers only, whatever happens, exactly when
   * nothing stale is left to act on.
   */
  lemma SyncFreshExactly(h: Hook)
    requires Counted(h)
    ensures (forall es :: Runs(false, h, es) && SameJob(es) ==> ReloadsFresh(false, h, es)) <==> Safe(h)
  {
    if Safe(h) {
      forall es | Runs(false, h, es) && SameJob(es)
        ensures ReloadsFresh(false, h, es)
      {
        SafeReloadsFresh(false, h, es);
      }
    } else {
      LateAnswerReloads(h);
    }
  }

  /**
   * And after a change of sync that is so exactly when the page rendered without one in between,
   * nothing had been asked, or what had been asked was already answered "running".
   */
  lemma NextSyncIsSafeExactly(h: Hook, job: Option<JobId>)
    requires Counted(h) && Fresh(h) && job != h.followed
    ensures Safe(Step(false, h, Follow(job)))
            <==> job.None? || !h.asked || (h.loading.None? && h.heard.value.0.running)
  {
  }

  /** A recapture page forgets that anything was asked: no answer heard so far reloads it, whatever it says. */
  lemma NewJobIgnoresOldAnswers(byId: bool, h: Hook, job: Option<JobId>, es: seq<Event>)
    requires Counted(h) && job != h.followed && Ticks(es) == 0
    requires Runs(byId, Step(byId, h, Follow(job)), es) && !Carries(byId, h, Follow(job))
    ensures After(byId, Step(byId, h, Follow(job)), es).reloads == h.reloads
  {
    StepCounts(byId, h, Follow(job));
    NeverFewer(byId, Step(byId, h, Follow(job)), es);
    NoReloadLoop(byId, Step(byId, h, Follow(job)), es);
  }

  /** A poll is out when the first sync ends and a second begins; its answer reloads the second's page. */
  const NEXT_SYNC: seq<Event> := [Follow(Some(1)), Tick, Follow(Some(2)), Arrive(Answer(0, false)), Render(false)]

  /**
   * From a freshly mounted page: the answer to a poll about the first sync, not running, reloads the
   * page about the second, of which nothing was ever asked.
   */
  lemma SyncReloadsOnAStaleAnswer()
    ensures Runs(false, MOUNTED, NEXT_SYNC) && !ReloadsFresh(false, MOUNTED, NEXT_SYNC)
    ensures var h := After(false, MOUNTED, NEXT_SYNC);
            h.followed == Some(2) && h.reloads == 1 && h.heard.value.1.following == 1
  {
    var h3 := Step(false, Step(false, Step(false, MOUNTED, Follow(Some(1))), Tick), Follow(Some(2)));
    var h4 := Step(false, h3, Arrive(Answer(0, false)));
    assert Reloads(false, h4) && h4.heard.value.1.epoch != h4.epoch;
    assert NEXT_SYNC[1..][1..][1..][1..][1..] == [];
    assert Runs(false, h4, [Render(false)]) && !ReloadsFresh(false, h4, [Render(false)]);
    assert NEXT_SYNC[1..][1..][1..][1..] == [Render(false)];
    assert Runs(false, h3, NEXT_SYNC[1..][1..][1..]) && !ReloadsFresh(false, h3, NEXT_SYNC[1..][1..][1..]);
    assert After(false, h3, NEXT_SYNC[1..][1..][1..]) == Step(false, h4, Render(false));
  }

  /** And it does reload: a render that finds the followed job's own end, freshly asked, is not lost. */
  lemma EndIsNotMissed(byId: bool, h: Hook, answer: Answer, reloading: bool)
    requires Counted(h) && Fresh(h) && h.asked && h.loading.Some? && !h.busy && !answer.running
    requires byId ==> answer.id == h.followed.value
    ensures var arrived := Step(byId, h, Arrive(answer));
            Step(byId, arrived, Render(reloading)).reloads == h.reloads + 1
            && !Step(byId, arrived, Render(reloading)).asked
  {
  }

  // --------------------------------------------------------------- the hook

  /** The hook as it runs: a timer, a fetcher and effects updating its refs. */
  class PollingHook {
    const byId: bool
    var followed: Option<JobId>
    var asked: bool
    var loading: Option<Request>
    var heard: Option<(Answer, Request)>
    var busy: bool
    var epoch: nat
    var ticks: nat
    var reloads: nat

    constructor (byId: bool)
      ensures this.byId == byId && Now() == MOUNTED && Valid()
    {
      this.byId := byId;
      followed, asked, loading, heard, busy := None, false, None, None, false;
      epoch, ticks, reloads := 0, 0, 0;
    }

    function Now(): Hook
      reads this
    {
      Hook(followed, asked, loading, heard, busy, epoch, ticks, reloads)
    }

    ghost predicate Valid()
      reads this
    {
      Counted(Now()) && (byId ==> Fresh(Now()))
    }

    /** The followed job changed; the effect's cleanup and restart run only if its key did. */
    method OnFollow(job: Option<JobId>)
      requires Valid() && job != followed
      modifies this
      ensures Valid() && Now() == Step(byId, old(Now()), Follow(job))
    {
      if byId || followed.None? || job.None? {
        asked := false;
      }
      followed := job;
      epoch := epoch + 1;
    }

    method OnTimer()
      requires Valid() && followed.Some?
      modifies this
      ensures Valid() && Now() == Step(byId, old(Now()), Tick)
    {
      asked := true;
      loading := Some(Request(followed.value, epoch));
      ticks := ticks + 1;
    }

    method OnAnswer(answer: Answer)
      requires Valid() && loading.Some?
      modifies this
      ensures Valid() && Now() == Step(byId, old(Now()), Arrive(answer))
    {
      heard := Some((answer, loading.value));
      loading := None;
    }

    /** The effect: at most one reload for what was asked, and only on the job's own end. */
    method OnRender(reloading: bool) returns (reload: bool)
      requires Valid()
      modifies this
      ensures Valid() && Now() == Step(byId, old(Now()), Render(reloading))
      ensures reload <==> Reloads(byId, old(Now()))
    {
      var polled := if loading.None? && heard.Some? then Some(heard.value.0) else None;
      var ended := asked && followed.Some? && polled.Some? && !polled.value.running
                   && (!byId || polled.value.id == followed.value);
      reload := ended && !busy;
      if reload {
        asked := false;
        busy := reloading;
        reloads := reloads + 1;
      }
    }

    method OnReloaded()
      requires Valid()
      modifies this
      ensures Valid() && Now() == Step(byId, old(Now()), Settle)
    {
      busy := false;
    }
  }

  /** One thing happening to a mounted hook. */
  method Happen(hook: PollingHook, e: Event)
    requires hook.Valid() && Enabled(hook.Now(), e)
    modifies hook
    ensures hook.Valid() && hook.Now() == Step(hook.byId, old(hook.Now()), e)
  {
    match e {
      case Follow(job) => hook.OnFollow(job);
      case Tick => hook.OnTimer();
      case Arrive(answer) => hook.OnAnswer(answer);
      case Render(reloading) => var reload := hook.OnRender(reloading);
      case Settle => hook.OnReloaded();
    }
  }

  /**
   * A mounted hook through any interleaving: it never reloads more often than it polled, a
   * recapture's reloads are all fresh, and a sync's are when no change of sync goes unnoticed.
   */
  method Follows(byId: bool, es: seq<Event>) returns (reloads: nat)
    requires Runs(byId, MOUNTED, es)
    ensures reloads == After(byId, MOUNTED, es).reloads && reloads <= Ticks(es)
    ensures byId || NoneCarried(byId, MOUNTED, es) ==> ReloadsFresh(byId, MOUNTED, es)
  {
    var hook := new PollingHook(byId);
    for i := 0 to |es|
      invariant hook.Valid() && hook.byId == byId && Runs(byId, hook.Now(), es[i..])
      invariant After(byId, hook.Now(), es[i..]) == After(byId, MOUNTED, es)
    {
      assert es[i..][0] == es[i] && es[i..][1..] == es[i + 1..];
      Happen(hook, es[i]);
    }
    assert es[|es|..] == [];
    reloads := hook.reloads;
    MountedHookNeverLoops(byId, es);
    if byId {
      RecaptureIsAlwaysFresh(MOUNTED, es);
    } else if NoneCarried(byId, MOUNTED, es) {
      EveryReloadIsFresh(byId, MOUNTED, es);
    }
  }
}
