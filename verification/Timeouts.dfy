/** Timeout resolution, and how exactly a running sandbox is stopped when a limit passes. */
module Timeouts {
  import opened Wrappers
  import opened Lifecycle

  /******* Resolution against governance limits *******/

  // Zero is infinite on both sides.
  function ResolveEffectiveTimeout(requested: Time, governanceMax: Time, allowsInfinite: bool): Time {
    if requested == 0 then
      if allowsInfinite || governanceMax == 0 then 0 else governanceMax
    else if governanceMax == 0 then requested
    else if requested < governanceMax then requested
    else governanceMax
  }

  // A governed timeout never exceeds the limit, never loosens what was asked for, and stays
  // infinite exactly when it was asked to be and governance lets it. Durations may be negative.
  lemma ResolvedTimeoutIsGoverned(requested: Time, governanceMax: Time, allowsInfinite: bool)
    ensures var r := ResolveEffectiveTimeout(requested, governanceMax, allowsInfinite);
            && (r == 0 <==> requested == 0 && (allowsInfinite || governanceMax == 0))
            && (governanceMax != 0 && r != 0 ==> r <= governanceMax)
            && (requested != 0 ==> r <= requested)
            && (r == requested || r == governanceMax)
  {
  }

  /******* The helper that schedules the next look *******/

  function TimeUntil(since: Option<Time>, limit: Time, now: Time): Time {
    if limit == 0 || since.None? then 0
    else
      var remaining := limit - (now - since.value);
      if remaining < 0 then 0 else remaining
  }

  function EarlierDelay(since: Option<Time>, limit: Time, now: Time, delay: Time): Time {
    var remaining := TimeUntil(since, limit, now);
    if limit > 0 && 0 < remaining < delay then remaining else delay
  }

  function NextRequeueDelay(
      idle: Time, runtime: Time, lastActivity: Option<Time>, startedAt: Option<Time>, now: Time): Time
  {
    EarlierDelay(startedAt, runtime, now, EarlierDelay(lastActivity, idle, now, DEFAULT_REQUEUE_DELAY)) + SECOND
  }

  // The next look comes at most a second after any deadline still ahead, and never sooner than
  // the earliest one.
  lemma NextLookIsClose(idle: Time, runtime: Time, lastActivity: Option<Time>, startedAt: Option<Time>, now: Time)
    ensures var next := now + NextRequeueDelay(idle, runtime, lastActivity, startedAt, now);
            var idleAhead := idle > 0 && lastActivity.Some? && lastActivity.value + idle > now;
            var runtimeAhead := runtime > 0 && startedAt.Some? && startedAt.value + runtime > now;
            && (idleAhead ==> next <= lastActivity.value + idle + SECOND)
            && (runtimeAhead ==> next <= startedAt.value + runtime + SECOND)
            && next <= now + DEFAULT_REQUEUE_DELAY + SECOND
            && (|| next == now + DEFAULT_REQUEUE_DELAY + SECOND
                || (idleAhead && next == lastActivity.value + idle + SECOND)
                || (runtimeAhead && next == startedAt.value + runtime + SECOND))
  {
  }

  /******* Auto-stop *******/

  predicate Limited(limit: Option<Time>) {
    limit.Some? && limit.value > 0
  }

  predicate DueAt(p: Pass, elapsed: Time) {
    || (Limited(p.idleTimeout) && elapsed >= p.idleTimeout.value)
    || (Limited(p.timeout) && elapsed >= p.timeout.value)
  }

  // How long a pass so long after the start sleeps.
  function SleepAt(p: Pass, elapsed: Time): Time {
    TightenDelay(Some(0), p.timeout, elapsed, TightenDelay(Some(0), p.idleTimeout, elapsed, DEFAULT_REQUEUE_DELAY))
  }

  predicate HasLivePod(w: World) {
    w.status.podName != "" && w.status.podName in w.pods && PodReady(w.pods[w.status.podName])
  }

  // A running sandbox that nobody touches, started at `start`. That its last activity is its start
  // holds in every run, by `ActivityIsTheStart`.
  predicate Healthy(w: World, start: Time) {
    && w.present && w.finalizer && !w.deleting && !w.stopRequested
    && w.status.phase.Running? && HasLivePod(w)
    && w.status.startedAt == w.status.lastActivity == Some(start)
  }

  predicate ResetsAt(count: nat, elapsed: Time) {
    count > 0 && elapsed >= RESTART_COUNT_RESET_WINDOW
  }

  // The counter is reset if that is due, whatever the limits say; only then is the sandbox stopped,
  // exactly if a limit has passed; and otherwise the pass sleeps.
  ghost predicate PassEnds(w: World, p: Pass, start: Time, o: Outcome) {
    var elapsed := w.clock - start;
    if ResetsAt(w.status.restartCount, elapsed) then
      o == Outcome(w.(status := w.status.(restartCount := 0), log := w.log + [CounterReset(w.clock)]), Requeue)
    else if DueAt(p, elapsed) then o.world.status.phase.Stopped?
    else o == Outcome(w, RequeueAfter(SleepAt(p, elapsed)))
  }

  lemma HealthyPassStopsWhenDue(sandbox: string, w: World, p: Pass, start: Time)
    requires Healthy(w, start) && p.faults == {}
    ensures PassEnds(w, p, start, Dispatch(sandbox, w, p))
  {
    HealthyPlan(w, p, start);
  }

  lemma HealthyPlan(w: World, p: Pass, start: Time)
    requires Healthy(w, start) && p.faults == {}
    ensures PlanRunning(w, p) ==
              if ResetsAt(w.status.restartCount, w.clock - start) then Plan(Reset, Requeue)
              else if Expired(w.status.lastActivity, p.idleTimeout, w.clock) then
                PlanStop(w, "Idle timeout exceeded", p)
              else if DueAt(p, w.clock - start) then PlanStop(w, "Max runtime exceeded", p)
              else Quiet(RequeueAfter(SleepAt(p, w.clock - start)))
    ensures Expired(w.status.lastActivity, p.idleTimeout, w.clock) ==> DueAt(p, w.clock - start)
  {
  }

  /******* Whole watches: from the starting pass to the stopping one *******/

  datatype Visit = Visit(at: Time, after: Outcome)

  // A pass may begin a sandbox: no call of it fails and the pod it takes is ready.
  predicate Starts(sandbox: string, w: World, p: Pass) {
    && p.faults == {}
    && w.present && w.finalizer && !w.deleting && !w.stopRequested
    && (w.status.phase.Fresh? || w.status.phase.Creating?)
    && match PlanPhase(sandbox, Awake(w), p).move
       case StartWarm(pod, _) => PodReady(w.pods[pod])
       case StartCold => true
       case _ => false
  }

  // Timers fire no later than the pass before them asked for; a pass that asks to be put back in
  // the queue at once is followed by another within `lag`.
  function WakeWithin(r: ReconcileResult, lag: nat): Time {
    match r
    case RequeueAfter(delay) => delay
    case _ => lag
  }

  ghost predicate Follows(sandbox: string, p: Pass, before: World, v: Visit) {
    v.after == Dispatch(sandbox, before.(clock := v.at), p)
  }

  ghost predicate FollowsInTime(sandbox: string, p: Pass, lag: nat, u: Visit, v: Visit) {
    && u.after.world.status.phase.Running?
    && u.at <= v.at <= u.at + WakeWithin(u.after.result, lag)
    && Follows(sandbox, p, u.after.world, v)
  }

  ghost predicate Watch(sandbox: string, w: World, p: Pass, lag: nat, visits: seq<Visit>) {
    && visits != []
    && Follows(sandbox, p, w, visits[0])
    && forall k | 0 < k < |visits| :: FollowsInTime(sandbox, p, lag, visits[k - 1], visits[k])
  }

  // Not before a deadline, less than two seconds after an idle one, at most one after the other.
  predicate OnTime(p: Pass, elapsed: Time) {
    DueAt(p, elapsed) && InTime(p, elapsed)
  }

  predicate InTime(p: Pass, elapsed: Time) {
    && (Limited(p.idleTimeout) ==> elapsed < p.idleTimeout.value + 2 * SECOND)
    && (Limited(p.timeout) ==> elapsed <= p.timeout.value + SECOND)
  }

  // A sleep that starts before both deadlines ends within the two bounds.
  lemma SleepEndsOnTime(p: Pass, elapsed: Time, next: Time)
    requires !DueAt(p, elapsed) && next <= elapsed + SleepAt(p, elapsed)
    ensures InTime(p, next) || !DueAt(p, next)
  {
  }

  // Both limits outlast the first delay, up to the slack each is allowed.
  predicate OutlastsFirstDelay(p: Pass) {
    && (Limited(p.idleTimeout) ==> p.idleTimeout.value > 28 * SECOND)
    && (Limited(p.timeout) ==> p.timeout.value >= 29 * SECOND)
  }

  function FirstDeadline(p: Pass): Time
    requires Limited(p.idleTimeout) || Limited(p.timeout)
  {
    if !Limited(p.timeout) || (Limited(p.idleTimeout) && p.idleTimeout.value <= p.timeout.value)
    then p.idleTimeout.value
    else p.timeout.value
  }

  // The last moment at which a pass of a restarted sandbox neither resets nor stops it.
  function LastQuiet(p: Pass): Time
    requires Limited(p.idleTimeout) || Limited(p.timeout)
  {
    (if FirstDeadline(p) <= RESTART_COUNT_RESET_WINDOW then FirstDeadline(p) else RESTART_COUNT_RESET_WINDOW) - 1
  }

  // When the pass after that comes at the latest.
  function LatestReset(p: Pass): Time
    requires Limited(p.idleTimeout) || Limited(p.timeout)
  {
    LastQuiet(p) + SleepAt(p, LastQuiet(p))
  }

  // The reset of a restart counter takes a pass of its own. The stop after it is still in time if
  // no such pass can come, or if even the latest leaves room for the lag.
  predicate OutlastsReset(p: Pass, restarts: nat, lag: nat)
    requires Limited(p.idleTimeout) || Limited(p.timeout)
  {
    restarts == 0 || LatestReset(p) < RESTART_COUNT_RESET_WINDOW || InTime(p, LatestReset(p) + lag)
  }

  lemma NoLaterReset(p: Pass, elapsed: Time)
    requires Limited(p.idleTimeout) || Limited(p.timeout)
    requires !DueAt(p, elapsed) && elapsed < RESTART_COUNT_RESET_WINDOW
    ensures elapsed + SleepAt(p, elapsed) <= LatestReset(p)
  {
  }

  /******* What each visit of a watch is *******/

  predicate Leaves(v: Visit, start: Time, count: nat, result: ReconcileResult) {
    && Healthy(v.after.world, start) && v.after.world.clock == v.at
    && v.after.world.status.restartCount == count && v.after.result == result
  }

  predicate Began(v: Visit, start: Time, restarts: nat) {
    v.at == start && Leaves(v, start, restarts, RequeueAfter(DEFAULT_REQUEUE_DELAY))
  }

  predicate Slept(p: Pass, v: Visit, start: Time, count: nat) {
    && Leaves(v, start, count, RequeueAfter(SleepAt(p, v.at - start)))
    && !DueAt(p, v.at - start) && !ResetsAt(count, v.at - start)
  }

  predicate WasReset(p: Pass, v: Visit, start: Time)
    requires Limited(p.idleTimeout) || Limited(p.timeout)
  {
    Leaves(v, start, 0, Requeue) && RESTART_COUNT_RESET_WINDOW <= v.at - start <= LatestReset(p)
  }

  predicate Known(p: Pass, v: Visit, start: Time, restarts: nat)
    requires Limited(p.idleTimeout) || Limited(p.timeout)
  {
    || Began(v, start, restarts)
    || Slept(p, v, start, restarts) || Slept(p, v, start, 0)
    || (restarts > 0 && WasReset(p, v, start))
  }

  lemma StartVisit(sandbox: string, w: World, p: Pass, v: Visit)
    requires Starts(sandbox, w, p) && Follows(sandbox, p, w, v)
    ensures Began(v, v.at, w.status.restartCount)
  {
    var now := w.(clock := v.at);
    StartingPlan(sandbox, Awake(now), Awake(w), p);
    var plan := PlanPhase(sandbox, Awake(now), p);
    StartCommit(sandbox, Awake(now), plan, p);
  }

  // What a creating pass decides does not depend on the clock.
  lemma StartingPlan(sandbox: string, now: World, w: World, p: Pass)
    requires now == w.(clock := now.clock) && w.status.phase.Creating? && p.faults == {}
    requires PlanPhase(sandbox, w, p).move.StartWarm? || PlanPhase(sandbox, w, p).move.StartCold?
    ensures var plan := PlanPhase(sandbox, now, p);
            && plan == PlanPhase(sandbox, w, p)
            && plan.result == RequeueAfter(DEFAULT_REQUEUE_DELAY) && !plan.built && !plan.gone && !plan.cleared
            && (plan.move.StartWarm? ==> plan.move.pod != "" && plan.move.pod in w.pods)
            && (plan.move.StartCold? ==> PodNameOf(sandbox) in w.pods && PodReady(w.pods[PodNameOf(sandbox)]))
  {
  }

  lemma StartCommit(sandbox: string, w: World, plan: Plan, p: Pass)
    requires p.faults == {} && !plan.built && !plan.gone && !plan.cleared
    requires plan.move.StartWarm? || plan.move.StartCold?
    ensures var o := Commit(sandbox, w, plan, p);
            && o.result == plan.result
            && o.world == w.(status := StatusAfter(sandbox, w.status, w.clock, plan.move),
                             pvcs := o.world.pvcs, netpol := o.world.netpol)
  {
  }

  // One visit after another: what kind the next one is, and when it stops the sandbox.
  lemma NextVisit(sandbox: string, p: Pass, lag: nat, u: Visit, v: Visit, start: Time, restarts: nat)
    requires Limited(p.idleTimeout) || Limited(p.timeout)
    requires p.faults == {} && Known(p, u, start, restarts) && FollowsInTime(sandbox, p, lag, u, v)
    ensures v.after.world.status.phase.Running? ==> Known(p, v, start, restarts)
    ensures !v.after.world.status.phase.Running? ==> DueAt(p, v.at - start)
  {
    HealthyPassStopsWhenDue(sandbox, u.after.world.(clock := v.at), p, start);
    NextKnown(p, lag, u, v, start, restarts);
  }

  lemma NextKnown(p: Pass, lag: nat, u: Visit, v: Visit, start: Time, restarts: nat)
    requires Limited(p.idleTimeout) || Limited(p.timeout)
    requires Known(p, u, start, restarts) && PassEnds(u.after.world.(clock := v.at), p, start, v.after)
    requires v.at <= u.at + WakeWithin(u.after.result, lag)
    ensures v.after.world.status.phase.Running? ==> Known(p, v, start, restarts)
    ensures !v.after.world.status.phase.Running? ==> DueAt(p, v.at - start)
  {
    var count := u.after.world.status.restartCount;
    if ResetsAt(count, v.at - start) && Slept(p, u, start, count) {
      NoLaterReset(p, u.at - start);
    }
  }

  lemma {:induction false} VisitsAreKnown(sandbox: string, w: World, p: Pass, lag: nat, visits: seq<Visit>, k: nat)
    requires Limited(p.idleTimeout) || Limited(p.timeout)
    requires Starts(sandbox, w, p) && Watch(sandbox, w, p, lag, visits) && k < |visits| - 1
    ensures Known(p, visits[k], visits[0].at, w.status.restartCount)
  {
    if k == 0 {
      StartVisit(sandbox, w, p, visits[0]);
    } else {
      VisitsAreKnown(sandbox, w, p, lag, visits, k - 1);
      assert FollowsInTime(sandbox, p, lag, visits[k - 1], visits[k]);
      assert FollowsInTime(sandbox, p, lag, visits[k], visits[k + 1]);
      NextVisit(sandbox, p, lag, visits[k - 1], visits[k], visits[0].at, w.status.restartCount);
    }
  }

  // The visit that stops the sandbox is in time, whichever kind the one before it was.
  lemma StopIsOnTime(p: Pass, lag: nat, u: Visit, start: Time, restarts: nat, elapsed: Time)
    requires Limited(p.idleTimeout) || Limited(p.timeout)
    requires OutlastsFirstDelay(p) && OutlastsReset(p, restarts, lag)
    requires Known(p, u, start, restarts) && DueAt(p, elapsed)
    requires elapsed <= u.at - start + WakeWithin(u.after.result, lag)
    ensures OnTime(p, elapsed)
  {
    if Slept(p, u, start, restarts) || Slept(p, u, start, 0) {
      SleepEndsOnTime(p, u.at - start, elapsed);
    }
  }

  // Visits a second apart, up to a quiet one.
  lemma {:induction false} QuietVisits(sandbox: string, w: World, p: Pass, lag: nat, elapsed: Time)
      returns (visits: seq<Visit>)
    requires Starts(sandbox, w, p) && 0 < elapsed
    requires !DueAt(p, elapsed) && !ResetsAt(w.status.restartCount, elapsed)
    ensures Watch(sandbox, w, p, lag, visits) && visits[0].at == 0
    ensures Slept(p, visits[|visits| - 1], 0, w.status.restartCount) && visits[|visits| - 1].at == elapsed
    decreases elapsed
  {
    if elapsed <= DEFAULT_REQUEUE_DELAY {
      var first := Visit(0, Dispatch(sandbox, w.(clock := 0), p));
      StartVisit(sandbox, w, p, first);
      visits := [first];
    } else {
      visits := QuietVisits(sandbox, w, p, lag, elapsed - SECOND);
    }
    visits := OneMore(sandbox, w, p, lag, visits, elapsed);
    HealthyPassStopsWhenDue(sandbox, visits[|visits| - 2].after.world.(clock := elapsed), p, 0);
  }

  lemma OneMore(sandbox: string, w: World, p: Pass, lag: nat, visits: seq<Visit>, at: Time) returns (more: seq<Visit>)
    requires Watch(sandbox, w, p, lag, visits)
    requires var u := visits[|visits| - 1];
             && u.after.world.status.phase.Running?
             && u.at <= at <= u.at + WakeWithin(u.after.result, lag)
    ensures Watch(sandbox, w, p, lag, more) && |more| == |visits| + 1 && more[..|visits|] == visits
    ensures more[|visits|] == Visit(at, Dispatch(sandbox, visits[|visits| - 1].after.world.(clock := at), p))
  {
    var u := visits[|visits| - 1];
    var v := Visit(at, Dispatch(sandbox, u.after.world.(clock := at), p));
    more := visits + [v];
    forall k | 0 < k < |more| ensures FollowsInTime(sandbox, p, lag, more[k - 1], more[k]) {
      assert k < |visits| ==> FollowsInTime(sandbox, p, lag, visits[k - 1], visits[k]);
    }
  }

  ghost predicate StopsLate(sandbox: string, w: World, p: Pass, lag: nat, visits: seq<Visit>) {
    && Watch(sandbox, w, p, lag, visits)
    && visits[|visits| - 1].after.world.status.phase.Stopped?
    && !OnTime(p, visits[|visits| - 1].at - visits[0].at)
  }

  // Thirty seconds pass before the first look.
  lemma FirstDelayTooLong(sandbox: string, w: World, p: Pass, lag: nat) returns (visits: seq<Visit>)
    requires Starts(sandbox, w, p) && !OutlastsFirstDelay(p)
    ensures StopsLate(sandbox, w, p, lag, visits)
  {
    var first := Visit(0, Dispatch(sandbox, w.(clock := 0), p));
    StartVisit(sandbox, w, p, first);
    visits := OneMore(sandbox, w, p, lag, [first], DEFAULT_REQUEUE_DELAY);
    HealthyPassStopsWhenDue(sandbox, first.after.world.(clock := DEFAULT_REQUEUE_DELAY), p, 0);
  }

  // The pass that finds the limit passed resets the counter, and the stop comes after the lag.
  lemma ResetTooLate(sandbox: string, w: World, p: Pass, lag: nat) returns (visits: seq<Visit>)
    requires Limited(p.idleTimeout) || Limited(p.timeout)
    requires Starts(sandbox, w, p) && OutlastsFirstDelay(p) && !OutlastsReset(p, w.status.restartCount, lag)
    ensures StopsLate(sandbox, w, p, lag, visits)
  {
    QuietBeforeReset(p, lag, w.status.restartCount);
    visits := QuietVisits(sandbox, w, p, lag, LastQuiet(p));
    visits := ResetVisit(sandbox, w, p, lag, visits);
    var cleared, at := visits[|visits| - 1], LatestReset(p) + lag;
    visits := OneMore(sandbox, w, p, lag, visits, at);
    HealthyPassStopsWhenDue(sandbox, cleared.after.world.(clock := at), p, 0);
  }

  lemma QuietBeforeReset(p: Pass, lag: nat, restarts: nat)
    requires Limited(p.idleTimeout) || Limited(p.timeout)
    requires OutlastsFirstDelay(p) && !OutlastsReset(p, restarts, lag)
    ensures 0 < LastQuiet(p) < LatestReset(p) && !DueAt(p, LastQuiet(p)) && !ResetsAt(restarts, LastQuiet(p))
    ensures ResetsAt(restarts, LatestReset(p))
    ensures DueAt(p, LatestReset(p) + lag) && !InTime(p, LatestReset(p) + lag)
  {
  }

  lemma ResetVisit(sandbox: string, w: World, p: Pass, lag: nat, visits: seq<Visit>) returns (more: seq<Visit>)
    requires Limited(p.idleTimeout) || Limited(p.timeout)
    requires p.faults == {} && Watch(sandbox, w, p, lag, visits) && visits[0].at == 0
    requires visits[|visits| - 1].at == LastQuiet(p) < LatestReset(p)
    requires Slept(p, visits[|visits| - 1], 0, w.status.restartCount) && ResetsAt(w.status.restartCount, LatestReset(p))
    ensures Watch(sandbox, w, p, lag, more) && more[0].at == 0
    ensures more[|more| - 1].at == LatestReset(p) && Leaves(more[|more| - 1], 0, 0, Requeue)
  {
    var quiet, reset := visits[|visits| - 1], LatestReset(p);
    more := OneMore(sandbox, w, p, lag, visits, reset);
    HealthyPassStopsWhenDue(sandbox, quiet.after.world.(clock := reset), p, 0);
  }

  // Every watch ends on time exactly when the limits outlast the thirty seconds the starting pass
  // sleeps whatever they are and, for a sandbox that was restarted, the pass that resets its
  // counter.
  lemma AutoStopIsOnTime(sandbox: string, w: World, p: Pass, lag: nat)
    requires Starts(sandbox, w, p) && (Limited(p.idleTimeout) || Limited(p.timeout))
    ensures (forall visits: seq<Visit> :: !StopsLate(sandbox, w, p, lag, visits))
            <==> OutlastsFirstDelay(p) && OutlastsReset(p, w.status.restartCount, lag)
  {
    if !OutlastsFirstDelay(p) {
      var visits := FirstDelayTooLong(sandbox, w, p, lag);
    } else if !OutlastsReset(p, w.status.restartCount, lag) {
      var visits := ResetTooLate(sandbox, w, p, lag);
    } else {
      forall visits: seq<Visit> ensures !StopsLate(sandbox, w, p, lag, visits) {
        if StopsLate(sandbox, w, p, lag, visits) {
          WatchEndsOnTime(sandbox, w, p, lag, visits);
        }
      }
    }
  }

  lemma WatchEndsOnTime(sandbox: string, w: World, p: Pass, lag: nat, visits: seq<Visit>)
    requires Starts(sandbox, w, p) && (Limited(p.idleTimeout) || Limited(p.timeout))
    requires OutlastsFirstDelay(p) && OutlastsReset(p, w.status.restartCount, lag)
    requires Watch(sandbox, w, p, lag, visits) && visits[|visits| - 1].after.world.status.phase.Stopped?
    ensures OnTime(p, visits[|visits| - 1].at - visits[0].at)
  {
    var n, start, restarts := |visits| - 1, visits[0].at, w.status.restartCount;
    StartVisit(sandbox, w, p, visits[0]);
    assert n > 0;
    VisitsAreKnown(sandbox, w, p, lag, visits, n - 1);
    assert FollowsInTime(sandbox, p, lag, visits[n - 1], visits[n]);
    NextVisit(sandbox, p, lag, visits[n - 1], visits[n], start, restarts);
    StopIsOnTime(p, lag, visits[n - 1], start, restarts, visits[n].at - start);
  }

  // When both fall due in one pass: a restarted sandbox whose limit is the reset window itself is
  // stopped late for any lag at all.
  lemma ResetAndLimitTogether(p: Pass, restarts: nat, lag: nat)
    requires p.timeout == Some(RESTART_COUNT_RESET_WINDOW) && p.idleTimeout.None? && restarts > 0
    ensures OutlastsFirstDelay(p)
    ensures OutlastsReset(p, restarts, lag) <==> lag == 0
  {
  }

  // What the reset can delay: only limits that fall due around the window, up to thirty seconds
  // behind it and two before, unless the lag itself is long.
  lemma ResetDelaysOnlyNearTheWindow(p: Pass, restarts: nat, lag: nat)
    requires (Limited(p.idleTimeout) || Limited(p.timeout)) && lag <= SECOND
    requires || FirstDeadline(p) <= RESTART_COUNT_RESET_WINDOW - 2 * SECOND
             || FirstDeadline(p) >= RESTART_COUNT_RESET_WINDOW + DEFAULT_REQUEUE_DELAY
    ensures OutlastsReset(p, restarts, lag)
  {
  }
}
