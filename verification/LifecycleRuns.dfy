/** What every reachable state of the lifecycle protocol satisfies. */
module LifecycleRuns {
  import opened Wrappers
  import opened Api
  import opened Lifecycle

  /******* Backoff arithmetic *******/

  function IntendedBackoff(restartCount: nat): Time {
    if Pow2(restartCount) >= 16 then MAX_BACKOFF else 10 * Pow2(restartCount) * SECOND
  }

  lemma {:induction false} Pow2Adds(m: nat, n: nat)
    ensures Pow2(m + n) == Pow2(m) * Pow2(n)
  {
    if n > 0 {
      Pow2Adds(m, n - 1);
      assert Pow2(m + n) == 2 * Pow2(m + (n - 1));
    }
  }

  lemma {:induction false} Pow2Monotone(m: nat, n: nat)
    requires m <= n
    ensures 1 <= Pow2(m) <= Pow2(n)
  {
    if m < n {
      Pow2Monotone(m, n - 1);
    } else if m > 0 {
      Pow2Monotone(m - 1, m - 1);
    }
  }

  lemma Pow2Of29And30()
    ensures Pow2(29) == 0x2000_0000 && Pow2(30) == 0x4000_0000
  {
    Pow2Adds(10, 10);
    Pow2Adds(20, 10);
    assert Pow2(10) == 1024;
    assert Pow2(30) == 2 * Pow2(29);
  }

  lemma BackoffWithoutWrap(n: nat)
    requires n <= 29
    ensures BackoffDelay(n) == IntendedBackoff(n)
  {
    Pow2Of29And30();
    Pow2Monotone(n, 29);
    var x := 10 * Pow2(n);
    assert 0 <= x < 0x8000_0000_0000_0000 && Wrap64(x) == x;
    assert 0 <= x * SECOND < 0x8000_0000_0000_0000 && Wrap64(x * SECOND) == x * SECOND;
  }

  lemma BackoffWraps()
    ensures BackoffDelay(30) < 0
  {
    Pow2Of29And30();
    assert Wrap64(10 * 0x4000_0000) == 10 * 0x4000_0000;
    assert Wrap64(10 * 0x4000_0000 * SECOND) < 0;
  }

  // The schedule is the doubling one, capped, as long as the shift stays clear of 64 bits: the
  // thirtieth doubling wraps to a negative delay.
  lemma BackoffDelayDoubles(n: nat)
    ensures (forall m: nat | m <= n :: BackoffDelay(m) == IntendedBackoff(m)) <==> n <= 29
  {
    if n <= 29 {
      forall m: nat | m <= n ensures BackoffDelay(m) == IntendedBackoff(m) {
        BackoffWithoutWrap(m);
      }
    } else {
      BackoffWraps();
      assert BackoffDelay(30) != IntendedBackoff(30);
    }
  }

  // The delays a run can meet; the first is twenty seconds, not ten.
  lemma BackoffOfRestart(n: nat)
    requires 1 <= n < MAX_RESTART_COUNT
    ensures BackoffDelay(n) == [20, 40, 80, 160][n - 1] * SECOND
  {
    assert Pow2(1) == 2 && Pow2(2) == 4 && Pow2(3) == 8 && Pow2(4) == 16;
  }

  /******* The state invariant *******/

  ghost predicate RunningIsIsolated(w: World) {
    w.status.phase.Running? ==>
      && w.status.podName != ""
      && w.status.startedAt.Some? && w.status.lastActivity.Some?
      && (w.deleting || w.netpol)
  }

  ghost predicate StoppedIsClean(w: World) {
    w.status.phase.Stopped? ==> w.status.podName == "" && w.status.startedAt.None?
  }

  ghost predicate RetryIsBounded(w: World) {
    var st := w.status;
    st.message.RetryPending? ==>
      && st.phase.Error? && st.podName == "" && st.startedAt.Some?
      && 1 <= st.restartCount < MAX_RESTART_COUNT
      && st.message.attempt == st.restartCount
      && st.message.wait == IntendedBackoff(st.restartCount)
  }

  ghost predicate Inv(w: World) {
    && RunningIsIsolated(w) && StoppedIsClean(w) && RetryIsBounded(w)
    && (w.status.startedAt.Some? ==> w.status.startedAt.value <= w.clock)
    && (w.deleting && w.present ==> w.finalizer)
  }

  /******* Which plans a pass can make *******/

  // When a plan may be made: each move starts in its own phase, and no status that says Running
  // is written before isolation.
  predicate Enabled(sandbox: string, w: World, p: Pass, plan: Plan) {
    var st := w.status;
    && (plan.built ==> plan.move.Build?)
    && match plan.move
       case Rest => true
       case StartWarm(pod, pvc) =>
         st.phase.Creating? && AdoptsWarmPod(w, p) && p.claim == Claimed(pod, pvc) && plan.isolated
       case StartCold => st.phase.Creating? && plan.claimed && plan.isolated
       case Build => st.phase.Creating? && plan.claimed && plan.built
       case Fail(_, pvc, count) =>
         || (st.phase.Creating? && count == st.restartCount
             && (pvc == st.pvcName || (pvc == WorkspaceOf(sandbox) && plan.claimed)))
         || (st.phase.Running? && pvc == st.pvcName && st.restartCount <= count <= st.restartCount + 1)
       case Halt(_) => st.phase.Running?
       case Retry(_) => st.phase.Running? && st.restartCount + 1 < MAX_RESTART_COUNT
       case Reset =>
         && st.phase.Running? && st.restartCount > 0 && st.startedAt.Some?
         && w.clock - st.startedAt.value >= RESTART_COUNT_RESET_WINDOW
       case Restart(notBefore) =>
         && st.phase.Error? && st.message.RetryPending? && st.restartCount < MAX_RESTART_COUNT
         && (st.startedAt.Some? ==> notBefore == st.startedAt.value + BackoffDelay(st.restartCount))
         && notBefore <= w.clock
  }

  lemma PlanIsEnabled(sandbox: string, w: World, p: Pass)
    ensures Enabled(sandbox, w, p, PlanPhase(sandbox, w, p))
  {
    match w.status.phase
    case Creating => CreatingPlanIsEnabled(sandbox, w, p);
    case Running => RunningPlanIsEnabled(sandbox, w, p);
    case _ =>
  }

  lemma CreatingPlanIsEnabled(sandbox: string, w: World, p: Pass)
    requires w.status.phase.Creating?
    ensures var plan := PlanCreating(sandbox, w, p);
            && Enabled(sandbox, w, p, plan)
            && (plan.move.StartWarm? <==>
                  AdoptsWarmPod(w, p) && EnsureNetpol !in p.faults && !p.template.ResolveFailed?)
  {
    StoragePlanIsEnabled(sandbox, w, p);
  }

  lemma StoragePlanIsEnabled(sandbox: string, w: World, p: Pass)
    requires w.status.phase.Creating?
    ensures Enabled(sandbox, w, p, PlanStorage(sandbox, w, p)) && !PlanStorage(sandbox, w, p).move.StartWarm?
  {
  }

  lemma RunningPlanIsEnabled(sandbox: string, w: World, p: Pass)
    requires w.status.phase.Running?
    ensures Enabled(sandbox, w, p, PlanRunning(w, p))
  {
    if w.status.podName != "" && !w.stopRequested && ReadPod !in p.faults && w.status.podName in w.pods {
      var pod := w.pods[w.status.podName];
      if pod.phase.PodFailed? || pod.phase.PodSucceeded? || ResetDue(w, pod) {
      } else {
        assert PlanRunning(w, p) == PlanTimeouts(w, p);
      }
    }
  }

  // A committed plan, field by field.
  ghost predicate Committed(sandbox: string, w: World, plan: Plan, p: Pass, w': World) {
    && w'.clock == w.clock && w'.deleting == w.deleting && w'.present == w.present && w'.finalizer == w.finalizer
    && w'.netpol == (w.netpol || plan.isolated)
    && w'.pvcs == (if plan.claimed then w.pvcs + {WorkspaceOf(sandbox)} else w.pvcs)
    && (if WriteStatus in p.faults
        then w'.status == w.status
        else w'.status == StatusAfter(sandbox, w.status, w.clock, plan.move))
    && (var touched := Note(Note(w.log, plan.built, PodBuilt(w.clock, PodNameOf(sandbox), WorkspaceOf(sandbox))),
                            plan.gone, PodDeleted(w.clock, w.status.podName));
        w'.log == if WriteStatus in p.faults then touched else Announce(touched, w.clock, plan.move))
  }

  lemma CommitFields(sandbox: string, w: World, plan: Plan, p: Pass)
    ensures Committed(sandbox, w, plan, p, Commit(sandbox, w, plan, p).world)
  {
  }

  // What a step other than a committed plan can do: time passes, a user resumes or deletes, a
  // deletion pass removes the recorded objects.
  ghost predicate Outside(w: World, s: Step, w': World) {
    && w'.clock >= w.clock
    && (w.deleting ==> w'.deleting)
    && ((w.deleting && w.present ==> w.finalizer) ==> (w'.deleting && w'.present ==> w'.finalizer))
    && (w'.present ==> w.present)
    && (w'.netpol == w.netpol || w.deleting)
    && (w'.pvcs == w.pvcs || (w.deleting && s.Reconcile? && w'.pvcs == w.pvcs - {w.status.pvcName}))
    && (|| w'.status == w.status
        || (&& ByUser(s) && (w.status.phase.Stopped? || w.status.phase.Error?)
            && (w'.status == w.status.(phase := Creating, message := Resuming, startedAt := w'.status.startedAt))
            && (w'.status.startedAt == w.status.startedAt || w'.status.startedAt == Some(w.clock))))
    && (w'.log == w.log || (w.deleting && s.Reconcile? && w' == AfterDelete(w, s.pass).world))
  }

  predicate ByUser(s: Step) {
    s.UserResume? || s.CallResumeSandbox?
  }

  predicate Plans(w: World, s: Step) {
    match s
    case Reconcile(p) =>
      w.present && !w.deleting && w.finalizer && !(w.status.phase.Fresh? && WriteCreating in p.faults)
    case CallStopSandbox(_, _) => w.present && w.status.phase.Running?
    case _ => false
  }

  // Every step commits an enabled plan or comes from outside.
  lemma StepCases(sandbox: string, w: World, s: Step) returns (plan: Plan)
    ensures Plans(w, s) ==>
              && Enabled(sandbox, Awake(w), s.pass, plan)
              && Committed(sandbox, Awake(w), plan, s.pass, Next(sandbox, w, s))
              && (s.Reconcile? ==> plan == PlanPhase(sandbox, Awake(w), s.pass))
    ensures !Plans(w, s) ==> Outside(w, s, Next(sandbox, w, s))
  {
    plan := Quiet(Done);
    match s
    case Reconcile(p) =>
      if Plans(w, s) {
        plan := PlanPhase(sandbox, Awake(w), p);
        PlanIsEnabled(sandbox, Awake(w), p);
        CommitFields(sandbox, Awake(w), plan, p);
      } else if w.present && w.deleting {
      }
    case CallStopSandbox(reason, p) =>
      if Plans(w, s) {
        plan := PlanStop(w, reason, p);
        CommitFields(sandbox, w, plan, p);
      }
    case _ =>
  }

  lemma CommitKeepsInv(sandbox: string, w: World, plan: Plan, p: Pass, w': World)
    requires Inv(w) && Enabled(sandbox, w, p, plan) && Committed(sandbox, w, plan, p, w') && sandbox != ""
    ensures Inv(w')
  {
    if WriteStatus !in p.faults && plan.move.Retry? {
      BackoffWithoutWrap(w.status.restartCount + 1);
    }
  }

  lemma OutsideKeepsInv(w: World, s: Step, w': World)
    requires Inv(w) && Outside(w, s, w')
    ensures Inv(w')
  {
  }

  lemma InvStep(sandbox: string, w: World, s: Step)
    requires Inv(w) && sandbox != ""
    ensures Inv(Next(sandbox, w, s))
  {
    var plan := StepCases(sandbox, w, s);
    var w' := Next(sandbox, w, s);
    if Plans(w, s) {
      CommitKeepsInv(sandbox, Awake(w), plan, s.pass, w');
    } else {
      OutsideKeepsInv(w, s, w');
    }
  }

  // Running means isolated, Stopped means clean, a pending retry is bounded: in every run.
  lemma {:induction false} ReachableInvariant(
      sandbox: string, clock: Time, pods: map<string, Pod>, pvcs: set<string>, steps: seq<Step>)
    requires sandbox != ""
    ensures Inv(Run(sandbox, Initial(clock, pods, pvcs), steps))
  {
    if steps != [] {
      ReachableInvariant(sandbox, clock, pods, pvcs, steps[..|steps| - 1]);
      InvStep(sandbox, Run(sandbox, Initial(clock, pods, pvcs), steps[..|steps| - 1]), steps[|steps| - 1]);
    }
  }

  /******* Phase moves *******/

  predicate LegalMove(a: Phase, b: Phase) {
    || a == b
    || (a.Fresh? && (b.Creating? || b.Running? || b.Error?))
    || (a.Creating? && (b.Running? || b.Error?))
    || (a.Running? && (b.Stopped? || b.Error?))
    || (a.Stopped? && b.Creating?)
    || (a.Error? && b.Creating?)
  }

  // Phases move along the documented edges. Only a resume leaves Stopped, and the controller
  // leaves Error only for a retry whose backoff has passed since the pod's start.
  lemma PhaseMoves(sandbox: string, w: World, s: Step)
    requires Inv(w)
    ensures var a, b := w.status.phase, Next(sandbox, w, s).status.phase;
            && LegalMove(a, b)
            && (a.Stopped? && b != a ==> ByUser(s))
            && (a.Error? && b != a && !ByUser(s) ==>
                  && w.status.message.RetryPending?
                  && w.clock >= w.status.startedAt.value + IntendedBackoff(w.status.restartCount))
  {
    var plan := StepCases(sandbox, w, s);
    if w.status.message.RetryPending? {
      BackoffWithoutWrap(w.status.restartCount);
    }
  }

  /******* The workspace *******/

  predicate InCreating(w: World) {
    w.status.phase.Fresh? || w.status.phase.Creating?
  }

  // A pass that adopts a warm pod and in which no call fails.
  predicate WarmClaimed(w: World, s: Step) {
    && s.Reconcile? && Plans(w, s)
    && InCreating(w) && AdoptsWarmPod(w, s.pass)
    && EnsureNetpol !in s.pass.faults && WriteStatus !in s.pass.faults
  }

  lemma WarmPlan(sandbox: string, w: World, s: Step)
    requires s.Reconcile? && Plans(w, s)
    ensures PlanPhase(sandbox, Awake(w), s.pass).move.StartWarm? && WriteStatus !in s.pass.faults <==> WarmClaimed(w, s)
  {
    if Awake(w).status.phase.Creating? {
      CreatingPlanIsEnabled(sandbox, Awake(w), s.pass);
    } else {
      PlanIsEnabled(sandbox, Awake(w), s.pass);
    }
  }

  // A recorded claim is replaced exactly when a pass adopts a warm pod with another claim and no
  // call of that pass fails.
  lemma WorkspaceChangesOnlyByWarmClaim(sandbox: string, w: World, s: Step)
    requires w.status.pvcName == WorkspaceOf(sandbox)
    ensures Next(sandbox, w, s).status.pvcName != WorkspaceOf(sandbox)
            <==> WarmClaimed(w, s) && s.pass.claim.pvc != WorkspaceOf(sandbox)
  {
    var plan := StepCases(sandbox, w, s);
    if s.Reconcile? && Plans(w, s) {
      WarmPlan(sandbox, w, s);
    }
  }

  ghost predicate NoWarmClaim(sandbox: string, w: World, steps: seq<Step>) {
    forall k | 0 <= k < |steps| :: !WarmClaimed(Run(sandbox, w, steps[..k]), steps[k])
  }

  ghost predicate BuildsMount(sandbox: string, log: seq<Event>) {
    forall e | e in log && e.PodBuilt? :: e.pod == PodNameOf(sandbox) && e.pvc == WorkspaceOf(sandbox)
  }

  ghost predicate WorkspaceInv(sandbox: string, w: World) {
    && (w.status.pvcName == "" || w.status.pvcName == WorkspaceOf(sandbox))
    && (w.status.pvcName != "" && !w.deleting ==> w.status.pvcName in w.pvcs)
  }

  lemma WorkspaceStep(sandbox: string, w: World, s: Step)
    requires WorkspaceInv(sandbox, w) && !WarmClaimed(w, s)
    ensures WorkspaceInv(sandbox, Next(sandbox, w, s))
    ensures w.status.pvcName != "" ==> Next(sandbox, w, s).status.pvcName == w.status.pvcName
  {
    var plan := StepCases(sandbox, w, s);
    if s.Reconcile? && Plans(w, s) {
      WarmPlan(sandbox, w, s);
    }
  }

  lemma NoWarmClaimBefore(sandbox: string, w: World, steps: seq<Step>)
    requires NoWarmClaim(sandbox, w, steps) && steps != []
    ensures NoWarmClaim(sandbox, w, steps[..|steps| - 1])
    ensures !WarmClaimed(Run(sandbox, w, steps[..|steps| - 1]), steps[|steps| - 1])
  {
    var before := steps[..|steps| - 1];
    forall j | 0 <= j < |before| ensures !WarmClaimed(Run(sandbox, w, before[..j]), before[j]) {
      assert before[..j] == steps[..j];
    }
  }

  // In a run without a warm claim a sandbox keeps one claim, and that claim exists until
  // deletion begins.
  lemma {:induction false} SameWorkspace(
      sandbox: string, clock: Time, pods: map<string, Pod>, pvcs: set<string>, steps: seq<Step>, k: nat)
    requires k <= |steps| && NoWarmClaim(sandbox, Initial(clock, pods, pvcs), steps)
    ensures var w0 := Initial(clock, pods, pvcs);
            var early, late := Run(sandbox, w0, steps[..k]), Run(sandbox, w0, steps);
            && WorkspaceInv(sandbox, late)
            && (early.status.pvcName != "" ==> late.status.pvcName == early.status.pvcName == WorkspaceOf(sandbox))
  {
    var w0 := Initial(clock, pods, pvcs);
    if steps == [] {
      assert steps[..k] == steps;
    } else {
      var before, s := steps[..|steps| - 1], steps[|steps| - 1];
      NoWarmClaimBefore(sandbox, w0, steps);
      SameWorkspace(sandbox, clock, pods, pvcs, before, if k < |steps| then k else |before|);
      WorkspaceStep(sandbox, Run(sandbox, w0, before), s);
      if k < |steps| {
        assert before[..k] == steps[..k];
      } else {
        assert steps[..k] == steps;
      }
    }
  }

  // A deletion pass appends only deletes.
  lemma DeletionAppends(w: World, p: Pass)
    ensures var log' := AfterDelete(w, p).world.log;
            && |w.log| <= |log'| && log'[..|w.log|] == w.log
            && forall k | |w.log| <= k < |log'| ::
                 && !log'[k].PodBuilt? && !log'[k].AutoRestart? && !log'[k].CounterReset?
                 && log'[k].at == w.clock
  {
  }

  lemma BuildStep(sandbox: string, w: World, s: Step)
    requires BuildsMount(sandbox, w.log)
    ensures BuildsMount(sandbox, Next(sandbox, w, s).log)
  {
    var plan := StepCases(sandbox, w, s);
    if !Plans(w, s) && w.deleting && s.Reconcile? {
      DeletionAppends(w, s.pass);
    }
  }

  // In every run, warm claims included, each pod the controller builds mounts the workspace.
  lemma {:induction false} EveryBuiltPodMountsWorkspace(
      sandbox: string, clock: Time, pods: map<string, Pod>, pvcs: set<string>, steps: seq<Step>)
    ensures BuildsMount(sandbox, Run(sandbox, Initial(clock, pods, pvcs), steps).log)
  {
    if steps != [] {
      var before := steps[..|steps| - 1];
      EveryBuiltPodMountsWorkspace(sandbox, clock, pods, pvcs, before);
      BuildStep(sandbox, Run(sandbox, Initial(clock, pods, pvcs), before), steps[|steps| - 1]);
    }
  }

  // A claim disappears only while its sandbox is being deleted, and only the recorded one does.
  lemma OnlyDeletionRemovesClaims(sandbox: string, w: World, s: Step)
    ensures var w' := Next(sandbox, w, s);
            w.pvcs <= w'.pvcs || (w.deleting && s.Reconcile? && w'.pvcs == w.pvcs - {w.status.pvcName})
  {
    var plan := StepCases(sandbox, w, s);
  }

  // With a warm pool the claim does change: any stopped sandbox that is resumed while a pool pod
  // can be adopted comes back on the pool's claim.
  lemma WarmResumeReplacesWorkspace(sandbox: string, w: World, p: Pass)
    requires Inv(w) && w.present && !w.deleting && w.finalizer && w.status.phase.Stopped?
    requires p.faults == {} && p.template.Resolved? && p.template.name != "" && p.inPoolNamespace
    requires p.claim.Claimed? && p.claim.pod != "" && p.claim.pod in w.pods
    ensures var w' := Next(sandbox, Next(sandbox, w, UserResume), Reconcile(p));
            && w'.status.phase.Running?
            && w'.status.pvcName == p.claim.pvc
  {
    var resumed := Next(sandbox, w, UserResume);
    assert PlanPhase(sandbox, resumed, p).move == StartWarm(p.claim.pod, p.claim.pvc);
  }

  /******* Deletion *******/

  // Everything a completed deletion has issued, in order.
  function DeleteEvents(w: World): seq<Event> {
    var pod := if w.status.podName != "" then [PodDeleted(w.clock, w.status.podName)] else [];
    var pvc := if w.status.pvcName != "" then [PvcDeleted(w.clock, w.status.pvcName)] else [];
    pod + pvc + [NetpolDeleted(w.clock), KeyRevoked(w.clock), FinalizerRemoved(w.clock)]
  }

  lemma DeletePass(w: World, p: Pass)
    requires w.finalizer && !AfterDelete(w, p).world.finalizer
    ensures var w' := AfterDelete(w, p).world;
            && w'.log == w.log + DeleteEvents(w)
            && (w.status.podName != "" ==> w.status.podName !in w'.pods)
            && (w.status.pvcName != "" ==> w.status.pvcName !in w'.pvcs)
            && !w'.netpol && !w'.present
  {
  }

  // The finalizer goes only in a deletion pass that has issued every delete, revoked the key
  // and only then written the object.
  lemma FinalizerGoesLast(sandbox: string, w: World, s: Step)
    requires w.finalizer && !Next(sandbox, w, s).finalizer
    ensures w.deleting && s.Reconcile?
    ensures var w' := Next(sandbox, w, s);
            && w'.log == w.log + DeleteEvents(w)
            && (w.status.podName != "" ==> w.status.podName !in w'.pods)
            && (w.status.pvcName != "" ==> w.status.pvcName !in w'.pvcs)
            && !w'.netpol && !w'.present
  {
    if s.Reconcile? && w.deleting && w.present {
      DeletePass(w, s.pass);
    } else {
      var plan := StepCases(sandbox, w, s);
    }
  }

  /******* What the protocol does not deliver *******/

  // A stop request is honoured exactly when neither the pod delete nor the status write fails;
  // otherwise the annotation is already cleared and the request is lost.
  lemma StopRequestHonoured(sandbox: string, w: World, p: Pass)
    requires Inv(w) && w.present && !w.deleting && w.finalizer
    requires w.status.phase.Running? && w.stopRequested && ClearAnnotation !in p.faults
    ensures var w' := Dispatch(sandbox, w, p).world;
            && !w'.stopRequested
            && (w'.status.phase.Stopped? <==> DeletePod !in p.faults && WriteStatus !in p.faults)
            && (w'.status.phase.Stopped? || w'.status == w.status)
  {
  }

  // After a restart from Creating, a cold pass rebuilds the pod exactly when no pod object is
  // left; a Failed one that was never deleted sends the sandbox to an Error without retry.
  lemma RestartRebuildsOnlyAbsentPod(sandbox: string, w: World, p: Pass)
    requires w.present && !w.deleting && w.finalizer && w.status.phase.Creating?
    requires p.faults == {} && !p.template.ResolveFailed? && !AdoptsWarmPod(w, p)
    ensures var w' := Dispatch(sandbox, w, p).world;
            var pod := PodNameOf(sandbox);
            && (PodBuilt(w.clock, pod, WorkspaceOf(sandbox)) in w'.log[|w.log|..] <==> pod !in w.pods)
            && (IsFinalError(w'.status) <==> pod in w.pods && w.pods[pod].phase.PodFailed?)
  {
    assert PlanPhase(sandbox, w, p) == PlanPod(sandbox, w, p).(claimed := true, isolated := true);
  }

  predicate IsFinalError(st: Status) {
    st.phase.Error? && !st.message.RetryPending?
  }

  // Without a user's resume such an Error is for good, in every run.
  lemma {:induction false} FinalErrorStays(sandbox: string, w: World, steps: seq<Step>)
    requires IsFinalError(w.status) && forall s | s in steps :: !ByUser(s)
    ensures Run(sandbox, w, steps).status == w.status
  {
    if steps != [] {
      var before, s := steps[..|steps| - 1], steps[|steps| - 1];
      FinalErrorStays(sandbox, w, before);
      var plan := StepCases(sandbox, Run(sandbox, w, before), s);
    }
  }

  predicate HasFailedPod(sandbox: string, w: World) {
    && w.status.podName == PodNameOf(sandbox) && w.status.podName in w.pods
    && w.pods[w.status.podName].phase.PodFailed?
    && IsInfrastructureFailure(Some(w.pods[w.status.podName]))
  }

  // No call fails, the template resolves, and the pool has nothing to give.
  predicate ColdPass(p: Pass) {
    p.faults == {} && !p.template.ResolveFailed? && !p.claim.Claimed?
  }

  lemma FailedPodIsRetried(sandbox: string, w: World, p: Pass)
    requires Inv(w) && w.present && w.finalizer && !w.deleting && !w.stopRequested && p.faults == {}
    requires w.status.phase.Running? && HasFailedPod(sandbox, w) && w.status.restartCount + 1 < MAX_RESTART_COUNT
    ensures var w' := Next(sandbox, w, Reconcile(p));
            && w'.status.phase.Error? && w'.status.message.RetryPending?
            && w'.status.restartCount == w.status.restartCount + 1 && w'.status.startedAt == w.status.startedAt
            && w' == w.(status := w'.status)
  {
  }

  lemma RetryStarts(sandbox: string, w: World, q: Pass)
    requires w.present && w.finalizer && !w.deleting && q.faults == {}
    requires w.status.phase.Error? && w.status.message.RetryPending? && w.status.restartCount < MAX_RESTART_COUNT
    requires w.status.startedAt.Some? && w.clock >= w.status.startedAt.value + MAX_BACKOFF
    ensures var w' := Next(sandbox, w, Reconcile(q));
            && w'.status.phase.Creating?
            && w' == w.(status := w'.status, log := w'.log)
  {
  }

  // The automatic restart never recovers a failed cold pod that nobody deletes: the retry comes,
  // after its backoff the sandbox is created again, and that ends in an Error it does not leave
  // without a user.
  lemma FailedPodIsNeverRecovered(
      sandbox: string, w: World, p: Pass, wait: nat, q: Pass, r: Pass, later: seq<Step>)
    requires Inv(w) && w.present && w.finalizer && !w.deleting && !w.stopRequested
    requires w.status.phase.Running? && HasFailedPod(sandbox, w) && w.status.restartCount + 1 < MAX_RESTART_COUNT
    requires p.faults == {} && q.faults == {} && ColdPass(r) && wait >= MAX_BACKOFF
    requires forall s | s in later :: !ByUser(s)
    ensures var retry := Next(sandbox, w, Reconcile(p));
            var again := Next(sandbox, Next(sandbox, retry, Tick(wait)), Reconcile(q));
            var end := Next(sandbox, again, Reconcile(r));
            && retry.status.message.RetryPending? && again.status.phase.Creating?
            && IsFinalError(end.status) && Run(sandbox, end, later).status == end.status
  {
    FailedPodIsRetried(sandbox, w, p);
    var due := Next(sandbox, Next(sandbox, w, Reconcile(p)), Tick(wait));
    RetryStarts(sandbox, due, q);
    var again := Next(sandbox, due, Reconcile(q));
    RestartRebuildsOnlyAbsentPod(sandbox, again, r);
    FinalErrorStays(sandbox, Next(sandbox, again, Reconcile(r)), later);
  }

  /******* Activity *******/

  predicate ActiveSinceStart(st: Status) {
    st.phase.Running? ==> st.lastActivity == st.startedAt
  }

  // Nothing but a start ever records activity, so a running sandbox has been idle since then, as
  // far as the idle limit can tell.
  lemma {:induction false} ActivityIsTheStart(
      sandbox: string, clock: Time, pods: map<string, Pod>, pvcs: set<string>, steps: seq<Step>)
    ensures ActiveSinceStart(Run(sandbox, Initial(clock, pods, pvcs), steps).status)
  {
    if steps != [] {
      var before, s := steps[..|steps| - 1], steps[|steps| - 1];
      ActivityIsTheStart(sandbox, clock, pods, pvcs, before);
      var plan := StepCases(sandbox, Run(sandbox, Initial(clock, pods, pvcs), before), s);
    }
  }
}
