/**
 * When the indexer syncs: one sync at a time, requests that come while one runs, a retry timer
 * after a failed sync or for a transaction the history does not list yet, and shutdown. A sync
 * ends in two steps of the event loop: its own last statement, and the callback that clears
 * `running`; anything may happen in between.
 */
module IndexerScheduler {
  import opened Wrappers

  datatype State = Disabled | Starting | Live | Retrying | Halted

  datatype Phase = Syncing | Settling

  datatype Reason = Failure | Waiting

  /** How a sync ends: done (some notified transaction still waited for, or none), another chain, an error. */
  datatype Outcome = Done(waiting: bool) | Mismatch | Error

  datatype Scheduler = Scheduler(
    state: State, running: Option<Phase>, pending: bool, retry: Option<Reason>, attempts: nat, stopped: bool,
    starts: nat, // syncs started so far
    active: nat) // syncs begun and not ended

  datatype Step =
    | Request // the subscription, a resubscription, the poll, start-up
    | SyncEnds(outcome: Outcome)
    | Finally
    | TimerFires
    | Shutdown

  const FIRST_RETRY_DELAY_MS: nat := 1_000
  const MAX_RETRY_DELAY_MS: nat := 60_000

  function Pow2(n: nat): nat { if n == 0 then 1 else 2 * Pow2(n - 1) }

  function RetryDelayMs(attempt: nat): nat
    requires attempt > 0
  {
    var delay := FIRST_RETRY_DELAY_MS * Pow2(attempt - 1);
    if delay < MAX_RETRY_DELAY_MS then delay else MAX_RETRY_DELAY_MS
  }

  /** 1 s, doubling, at most 60 s. */
  lemma {:induction false} DelayDoubles(attempt: nat)
    requires attempt > 0
    ensures RetryDelayMs(1) == 1_000
    ensures RetryDelayMs(attempt + 1) == if 2 * RetryDelayMs(attempt) < 60_000 then 2 * RetryDelayMs(attempt) else 60_000
  {
    assert Pow2(attempt) == 2 * Pow2(attempt - 1);
    assert Pow2(0) == 1;
  }

  predicate Listens(s: Scheduler) {
    !s.stopped && s.state != Disabled && s.state != Halted
  }

  function Started(s: Scheduler): Scheduler {
    s.(pending := false, running := Some(Syncing), starts := s.starts + 1, active := s.active + 1)
  }

  function Requested(s: Scheduler): Scheduler {
    if !Listens(s) || s.retry == Some(Failure) then s else
    var t := s.(retry := None);
    if t.running.Some? then t.(pending := true) else Started(t)
  }

  function Scheduled(s: Scheduler, reason: Reason): Scheduler {
    if s.stopped then s else s.(retry := Some(reason))
  }

  function Ended(s: Scheduler, outcome: Outcome): Scheduler {
    if s.running != Some(Syncing) || s.active == 0 then s else
    var t := s.(running := Some(Settling), active := s.active - 1);
    match outcome
    case Done(true) => Scheduled(t.(state := Live, attempts := t.attempts + 1), Waiting)
    case Done(false) => t.(state := Live, attempts := 0)
    case Mismatch => t.(state := Halted)
    case Error => Scheduled(t.(state := Retrying, attempts := t.attempts + 1), Failure)
  }

  function Settled(s: Scheduler): Scheduler {
    if s.running != Some(Settling) then s else
    var t := s.(running := None);
    if t.pending then Requested(t) else t
  }

  function Fired(s: Scheduler): Scheduler {
    if s.retry.None? then s else Requested(s.(retry := None))
  }

  function Do(s: Scheduler, step: Step): Scheduler {
    match step
    case Request => Requested(s)
    case SyncEnds(outcome) => Ended(s, outcome)
    case Finally => Settled(s)
    case TimerFires => Fired(s)
    case Shutdown => s.(stopped := true, retry := None)
  }

  function DoAll(s: Scheduler, run: seq<Step>): Scheduler {
    if run == [] then s else Do(DoAll(s, run[..|run| - 1]), run[|run| - 1])
  }

  function Initial(enabled: bool): Scheduler {
    Scheduler(if enabled then Starting else Disabled, None, false, None, 0, false, 0, 0)
  }

  // ---- the invariant ----

  ghost predicate Valid(s: Scheduler) {
    && s.active <= 1 && (s.active == 1 <==> s.running == Some(Syncing))
    && (s.running == Some(Syncing) ==> s.retry.None? && s.state != Halted && s.state != Disabled)
    && (s.pending && Listens(s) ==> s.running.Some? || s.retry == Some(Failure))
    && (s.stopped ==> s.retry.None?)
    && (s.retry.Some? ==> s.attempts > 0)
  }

  lemma {:induction false} RunKeeps(enabled: bool, run: seq<Step>)
    ensures Valid(DoAll(Initial(enabled), run))
  {
    if run != [] {
      RunKeeps(enabled, run[..|run| - 1]);
    }
  }

  /** Two syncs never run at once, and no timer is armed while one does. */
  lemma {:induction false} OneSyncAtATime(enabled: bool, run: seq<Step>)
    ensures var s := DoAll(Initial(enabled), run);
      && s.active <= 1 && (s.active == 1 <==> s.running == Some(Syncing))
      && (s.active == 1 ==> s.retry.None?)
  {
    RunKeeps(enabled, run);
  }

  lemma {:induction false} DoAllConcat(s: Scheduler, a: seq<Step>, b: seq<Step>)
    ensures DoAll(s, a + b) == DoAll(DoAll(s, a), b)
  {
    if b == [] {
      assert a + b == a;
    } else {
      assert (a + b)[..|a + b| - 1] == a + b[..|b| - 1];
      DoAllConcat(s, a, b[..|b| - 1]);
    }
  }

  // ---- a request is served ----

  /** Since `starts` syncs had started: another one has, or one is bound to, or nothing may start any more. */
  ghost predicate Served(s: Scheduler, starts: nat) {
    || s.starts > starts
    || s.retry.Some?
    || (s.running.Some? && s.pending)
    || !Listens(s)
  }

  lemma {:induction false} StepKeepsServed(s: Scheduler, starts: nat, step: Step)
    requires Valid(s) && starts <= s.starts && Served(s, starts)
    ensures starts <= Do(s, step).starts && Served(Do(s, step), starts)
  {}

  lemma {:induction false} StaysServed(enabled: bool, before: seq<Step>, starts: nat, after: seq<Step>)
    requires var s := DoAll(Initial(enabled), before); starts <= s.starts && Served(s, starts)
    ensures var s := DoAll(Initial(enabled), before + after); starts <= s.starts && Served(s, starts)
  {
    hide Do, Served, Valid;
    if after == [] {
      assert before + after == before;
    } else {
      var shorter := before + after[..|after| - 1];
      assert (before + after)[..|before + after| - 1] == shorter;
      StaysServed(enabled, before, starts, after[..|after| - 1]);
      RunKeeps(enabled, shorter);
      StepKeepsServed(DoAll(Initial(enabled), shorter), starts, after[|after| - 1]);
    }
  }

  /**
   * A request that comes while syncs may start is never lost: whenever no sync runs afterwards,
   * one has started since or a retry timer is armed, unless the indexer was halted or stopped.
   */
  lemma {:induction false} RequestIsServed(enabled: bool, before: seq<Step>, after: seq<Step>)
    requires Listens(DoAll(Initial(enabled), before))
    ensures var r := DoAll(Initial(enabled), before + [Request] + after);
      r.running.None? && Listens(r) ==> r.starts > DoAll(Initial(enabled), before).starts || r.retry.Some?
  {
    var s := DoAll(Initial(enabled), before);
    RunKeeps(enabled, before);
    assert (before + [Request])[..|before|] == before;
    StaysServed(enabled, before + [Request], s.starts, after);
    RunKeeps(enabled, before + [Request] + after);
  }

  /** The timer starts a sync, at the latest when the sync that runs has ended. */
  lemma {:induction false} TimerStartsASync(enabled: bool, run: seq<Step>)
    requires var s := DoAll(Initial(enabled), run); s.retry.Some? && Listens(s)
    ensures var s := DoAll(Initial(enabled), run);
      DoAll(Do(s, TimerFires), [Finally]).starts == s.starts + 1
  {
    RunKeeps(enabled, run);
    FiredThenSettled(DoAll(Initial(enabled), run));
  }

  lemma {:induction false} FiredThenSettled(s: Scheduler)
    requires Valid(s) && s.retry.Some? && Listens(s)
    ensures DoAll(Do(s, TimerFires), [Finally]).starts == s.starts + 1
  {
    assert s.running.Some? ==> s.running.value == Syncing || s.running.value == Settling;
    assert [Finally][..0] == [];
  }

  // ---- when a sync starts, and what its end leads to ----

  /** In any run: a request starts a sync exactly when syncs are on, none runs, and none failed that still waits; one that comes too early is kept. */
  lemma {:induction false} RequestStartsIff(enabled: bool, run: seq<Step>)
    ensures var s := DoAll(Initial(enabled), run);
      var r := Do(s, Request);
      && (r.starts == s.starts + 1 <==> enabled && !s.stopped && s.state != Halted && s.retry != Some(Failure) && s.running.None?)
      && (r.starts == s.starts || r.starts == s.starts + 1)
      && (r.starts == s.starts + 1 ==> r.running == Some(Syncing) && !r.pending && r.retry.None?)
      && (enabled && !s.stopped && s.state != Halted && s.retry != Some(Failure) && s.running.Some? ==> r.pending)
  {
    RunKeeps(enabled, run);
    DisabledStays(enabled, run);
  }

  /** The first failed sync is retried after a second. */
  lemma {:induction false} FirstRetryIsShort()
    ensures var s := Do(Do(Initial(true), Request), SyncEnds(Error)); s.retry == Some(Failure) && RetryDelayMs(s.attempts) == 1_000
  {
    DelayDoubles(1);
  }

  /** A disabled indexer never starts a sync, and an enabled one is never disabled. */
  lemma {:induction false} DisabledStays(enabled: bool, run: seq<Step>)
    ensures var s := DoAll(Initial(enabled), run);
      (s.state == Disabled <==> !enabled) && (!enabled ==> s.starts == 0 && s.running.None?)
  {
    if run != [] {
      DisabledStays(enabled, run[..|run| - 1]);
      RunKeeps(enabled, run[..|run| - 1]);
    }
  }

  /**
   * In any run: a failed sync waits for its delay and is retried, one that still waits for a
   * transaction is repeated, one on another chain ends it all, and otherwise nothing follows
   * that was not requested.
   */
  lemma {:induction false} SyncEndLeadsTo(enabled: bool, run: seq<Step>, outcome: Outcome)
    requires DoAll(Initial(enabled), run).running == Some(Syncing)
    ensures var s := DoAll(Initial(enabled), run);
      var ended := Do(s, SyncEnds(outcome));
      var r := Do(ended, Finally);
      && ended.running == Some(Settling) && ended.active == 0
      && (outcome == Error && !s.stopped ==> r.retry == Some(Failure) && r.attempts == s.attempts + 1 && r.running.None? && r.state == Retrying)
      && (outcome == Done(true) && !s.stopped ==> ended.retry == Some(Waiting) && ended.attempts == s.attempts + 1 && r.state == Live)
      && (outcome == Done(false) ==> ended.retry.None? && ended.attempts == 0 && r.state == Live)
      && (outcome == Mismatch ==> r.state == Halted && r.running.None? && r.retry.None?)
      && (outcome.Done? ==> (r.running.Some? <==> s.pending && !s.stopped) && r.starts == (if s.pending && !s.stopped then s.starts + 1 else s.starts))
  {
    RunKeeps(enabled, run);
  }

  // ---- backoff and shutdown ----

  /** While a failed sync waits for its delay, no request starts another. */
  lemma {:induction false} BackoffHolds(s: Scheduler, run: seq<Step>)
    requires s.retry == Some(Failure) && s.running.None? && TimerFires !in run
    ensures var r := DoAll(s, run); r.starts == s.starts && r.running.None? && (r.retry == Some(Failure) || r.stopped)
  {
    if run != [] {
      BackoffHolds(s, run[..|run| - 1]);
    }
  }

  /** Steps left until nothing runs: the sync's own end, and the callback after it. */
  function Left(s: Scheduler): nat {
    match s.running
    case None => 0
    case Some(Settling) => 1
    case Some(Syncing) => 2
  }

  lemma {:induction false} StoppedStep(s: Scheduler, step: Step)
    requires Valid(s) && s.stopped
    ensures var t := Do(s, step);
      && t.stopped && t.starts == s.starts && t.retry.None? && Left(t) <= Left(s)
      && (step.SyncEnds? ==> Left(t) <= 1) && (step.Finally? && Left(s) <= 1 ==> Left(t) == 0)
  {}

  lemma {:induction false} StaysStopped(enabled: bool, before: seq<Step>, after: seq<Step>)
    requires DoAll(Initial(enabled), before).stopped
    ensures var s, r := DoAll(Initial(enabled), before), DoAll(Initial(enabled), before + after);
      r.stopped && r.starts == s.starts && r.retry.None? && Left(r) <= Left(s)
  {
    hide Do, Valid;
    RunKeeps(enabled, before + after);
    if after == [] {
      assert before + after == before;
      StoppedHasNoTimer(DoAll(Initial(enabled), before));
    } else {
      var shorter := before + after[..|after| - 1];
      assert (before + after)[..|before + after| - 1] == shorter;
      StaysStopped(enabled, before, after[..|after| - 1]);
      RunKeeps(enabled, shorter);
      StoppedStep(DoAll(Initial(enabled), shorter), after[|after| - 1]);
    }
  }

  lemma {:induction false} StoppedHasNoTimer(s: Scheduler)
    requires Valid(s) && s.stopped
    ensures s.retry.None?
  {}

  /** Once stopped, `step` leaves at most `left` steps to go, whatever comes after it. */
  lemma {:induction false} LeftAfter(enabled: bool, before: seq<Step>, step: Step, after: seq<Step>, left: nat)
    requires var s := DoAll(Initial(enabled), before);
      s.stopped && (if step.SyncEnds? then left == 1 else step == Finally && Left(s) <= 1 && left == 0)
    ensures Left(DoAll(Initial(enabled), before + [step] + after)) <= left
  {
    hide Do, Valid;
    RunKeeps(enabled, before);
    StoppedStep(DoAll(Initial(enabled), before), step);
    assert (before + [step])[..|before|] == before;
    StaysStopped(enabled, before + [step], after);
  }

  /**
   * After shutdown began nothing starts and no timer is armed. What runs ends: once nothing
   * runs, nothing ever does again, and that is so when the sync that ran has ended and its
   * callback has been called.
   */
  lemma {:induction false} ShutdownIsFinal(enabled: bool, before: seq<Step>, after: seq<Step>)
    ensures var s := DoAll(Initial(enabled), before + [Shutdown]);
      var r := DoAll(Initial(enabled), before + [Shutdown] + after);
      && r.stopped && r.starts == s.starts && r.retry.None?
      && (s.running.None? ==> r.running.None? && r.active == 0)
      && (s.running == Some(Settling) && Finally in after ==> r.running.None? && r.active == 0)
      && (forall i, j :: 0 <= i < j < |after| && after[i].SyncEnds? && after[j] == Finally ==> r.running.None? && r.active == 0)
  {
    var prefix := before + [Shutdown];
    assert prefix[..|before|] == before;
    var s := DoAll(Initial(enabled), prefix);
    assert s.stopped;
    StaysStopped(enabled, prefix, after);
    OneSyncAtATime(enabled, prefix + after);
    hide Do, DoAll, Valid;
    if s.running == Some(Settling) && Finally in after {
      var j :| 0 <= j < |after| && after[j] == Finally;
      CallbackSettles(enabled, prefix, after, j);
    }
    forall i, j | 0 <= i < j < |after| && after[i].SyncEnds? && after[j] == Finally
      ensures Left(DoAll(Initial(enabled), prefix + after)) == 0
    {
      assert prefix + after[..j] == prefix + after[..i] + [after[i]] + after[i + 1..j];
      StaysStopped(enabled, prefix, after[..i]);
      LeftAfter(enabled, prefix + after[..i], after[i], after[i + 1..j], 1);
      CallbackSettles(enabled, prefix, after, j);
    }
  }

  lemma {:induction false} CallbackSettles(enabled: bool, prefix: seq<Step>, after: seq<Step>, j: nat)
    requires DoAll(Initial(enabled), prefix).stopped && j < |after| && after[j] == Finally
    requires Left(DoAll(Initial(enabled), prefix)) <= 1 || Left(DoAll(Initial(enabled), prefix + after[..j])) <= 1
    ensures Left(DoAll(Initial(enabled), prefix + after)) == 0
  {
    hide Do, DoAll;
    StaysStopped(enabled, prefix, after[..j]);
    assert prefix + after == prefix + after[..j] + [after[j]] + after[j + 1..];
    LeftAfter(enabled, prefix + after[..j], after[j], after[j + 1..], 0);
  }

  // ---- the service's fields ----

  class IndexerScheduler {
    var state: State
    var running: Option<Phase>
    var pending: bool
    var retry: Option<Reason>
    var attempts: nat
    var stopped: bool
    ghost var starts: nat
    ghost var active: nat

    ghost function Fields(): Scheduler
      reads this
    {
      Scheduler(state, running, pending, retry, attempts, stopped, starts, active)
    }

    constructor (enabled: bool)
      ensures Fields() == Initial(enabled)
    {
      state := if enabled then Starting else Disabled;
      running, pending, retry, attempts, stopped := None, false, None, 0, false;
      starts, active := 0, 0;
    }

    /** Starts a sync, or queues one if a sync is running. */
    method RequestSync()
      modifies this
      ensures Fields() == Do(old(Fields()), Request)
    {
      if stopped || state == Disabled || state == Halted {
        return;
      }
      if retry.Some? {
        if retry.value == Failure {
          return;
        }
        retry := None;
      }
      if running.Some? {
        pending := true;
        return;
      }
      pending := false;
      running := Some(Syncing);
      starts, active := starts + 1, active + 1;
    }

    method ScheduleRetry(reason: Reason)
      modifies this`retry
      ensures Fields() == Scheduled(old(Fields()), reason)
    {
      if !stopped {
        retry := Some(reason);
      }
    }

    /** The end of the sync that runs. */
    method RunOnceEnds(outcome: Outcome)
      requires running == Some(Syncing) && active > 0
      modifies this
      ensures Fields() == Do(old(Fields()), SyncEnds(outcome))
    {
      running, active := Some(Settling), active - 1;
      match outcome {
        case Done(waiting) =>
          state := Live;
          if waiting {
            attempts := attempts + 1;
            ScheduleRetry(Waiting);
          } else {
            attempts := 0;
          }
        case Mismatch =>
          state := Halted;
        case Error =>
          attempts := attempts + 1;
          state := Retrying;
          ScheduleRetry(Failure);
      }
    }

    /** The callback after a sync: a request that came meanwhile starts the next one. */
    method AfterSync()
      requires running == Some(Settling)
      modifies this
      ensures Fields() == Do(old(Fields()), Finally)
    {
      running := None;
      if pending {
        RequestSync();
      }
    }

    method RetryTimerFires()
      requires retry.Some?
      modifies this
      ensures Fields() == Do(old(Fields()), TimerFires)
    {
      retry := None;
      RequestSync();
    }

    method BeforeApplicationShutdown()
      modifies this
      ensures Fields() == Do(old(Fields()), Shutdown)
    {
      stopped := true;
      retry := None;
    }
  }
}
