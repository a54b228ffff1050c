/** What each kind of pass leaves and answers, in terms of the stored objects and the calls that
    fail. These pin the plans from outside: none of them is mentioned here. */
module LifecycleOutcomes {
  import opened Wrappers
  import opened Api
  import opened Lifecycle
  import opened LifecycleRuns

  // A pass reaches the phase's own work.
  predicate Attended(w: World) {
    w.present && w.finalizer && !w.deleting
  }

  /******* Creating *******/

  predicate InCreation(w: World, p: Pass) {
    Attended(w) && (w.status.phase.Creating? || (w.status.phase.Fresh? && WriteCreating !in p.faults))
  }

  // The pool gave a pod, and it could be fetched and adopted.
  predicate WarmStart(w: World, p: Pass) {
    && p.template.Resolved? && p.template.name != ""
    && p.inPoolNamespace && w.status.podName == ""
    && p.claim.Claimed? && p.claim.pod != "" && p.claim.pod in w.pods
    && {ReadClaimedPod, AdoptClaimedPod} !! p.faults
  }

  // A cold pass gets as far as the claim, the network policy, and the look at the pod.
  predicate ColdStart(w: World, p: Pass) {
    && !p.template.ResolveFailed? && !WarmStart(w, p)
    && (p.template.Resolved? && p.template.useHTTPExec ==> {EnsureRuntimeToken, EnsureScopedKey} !! p.faults)
  }

  predicate ReachesClaim(w: World, p: Pass) {
    ColdStart(w, p) && EnsurePvc !in p.faults
  }

  predicate ReachesIsolation(w: World, p: Pass) {
    ReachesClaim(w, p) && EnsureNetpol !in p.faults
  }

  predicate ReachesPod(w: World, p: Pass) {
    ReachesIsolation(w, p) && ReadPod !in p.faults
  }

  predicate IsUp(pods: map<string, Pod>, name: string) {
    name in pods && pods[name].phase == PodRunning && pods[name].readyCondition
  }

  predicate IsDown(pods: map<string, Pod>, name: string) {
    name in pods && pods[name].phase == PodFailed
  }

  // The move such a pass makes in each case, with what it touches on the way.
  ghost predicate CreatingMove(sandbox: string, w: World, p: Pass, plan: Plan) {
    var n, own, pod, pvc := w.status.restartCount, w.status.pvcName, sandbox + "-pod", sandbox + "-workspace";
    && !plan.gone && !plan.cleared
    && (plan.claimed <==> ReachesClaim(w, p))
    && (plan.built <==> ReachesPod(w, p) && pod !in w.pods && CreatePod !in p.faults)
    && (plan.isolated <==>
          || ReachesIsolation(w, p)
          || (!p.template.ResolveFailed? && WarmStart(w, p) && EnsureNetpol !in p.faults))
    && if p.template.ResolveFailed? then Failing(plan, own, n)
       else if WarmStart(w, p) then
         if EnsureNetpol in p.faults then Failing(plan, own, n)
         else plan.move == StartWarm(p.claim.pod, p.claim.pvc) && plan.result == RequeueAfter(30 * SECOND)
       else if !ReachesClaim(w, p) then Failing(plan, own, n)
       else if !ReachesIsolation(w, p) then Failing(plan, pvc, n)
       else if !ReachesPod(w, p) then plan.move == Rest && plan.result == Failed
       else if pod !in w.pods then
         if CreatePod in p.faults then Failing(plan, pvc, n)
         else plan.move == Build && plan.result == RequeueAfter(SECOND)
       else if IsUp(w.pods, pod) then plan.move == StartCold && plan.result == RequeueAfter(30 * SECOND)
       else if IsDown(w.pods, pod) then
         Failing(plan, pvc, n) && plan.move.text == "Pod failed: " + FailureReason(w.pods[pod])
       else plan.move == Rest && plan.result == RequeueAfter(SECOND)
  }

  predicate Failing(plan: Plan, pvc: string, count: nat) {
    plan.move.Fail? && plan.move.pvc == pvc && plan.move.count == count && plan.result == Done
  }

  lemma CreatingPlan(sandbox: string, w: World, p: Pass) returns (plan: Plan)
    requires InCreation(w, p)
    ensures Dispatch(sandbox, w, p) == Commit(sandbox, Awake(w), plan, p)
    ensures CreatingMove(sandbox, w, p, plan)
  {
    plan := PlanCreating(sandbox, Awake(w), p);
    DispatchCommits(sandbox, w, p);
    if p.template.ResolveFailed? {
    } else if WarmStart(w, p) {
      WarmMove(sandbox, w, p);
    } else {
      ColdMove(sandbox, w, p);
    }
  }

  lemma DispatchCommits(sandbox: string, w: World, p: Pass)
    requires InCreation(w, p)
    ensures Dispatch(sandbox, w, p) == Commit(sandbox, Awake(w), PlanCreating(sandbox, Awake(w), p), p)
    ensures AdoptsWarmPod(Awake(w), p) <==> WarmStart(w, p)
  {
  }

  lemma WarmMove(sandbox: string, w: World, p: Pass)
    requires InCreation(w, p) && !p.template.ResolveFailed? && WarmStart(w, p)
    ensures CreatingMove(sandbox, w, p, PlanWarm(Awake(w), p.claim.pod, p.claim.pvc, p))
  {
  }

  lemma ColdMove(sandbox: string, w: World, p: Pass)
    requires InCreation(w, p) && !p.template.ResolveFailed? && !WarmStart(w, p)
    ensures CreatingMove(sandbox, w, p, PlanCold(sandbox, Awake(w), p))
  {
    if ReachesIsolation(w, p) {
      PodMove(sandbox, w, p);
    }
  }

  lemma PodMove(sandbox: string, w: World, p: Pass)
    requires InCreation(w, p) && ReachesIsolation(w, p)
    ensures CreatingMove(sandbox, w, p, PlanPod(sandbox, Awake(w), p).(claimed := true, isolated := true))
  {
  }

  // A pass over a creating sandbox ends in Running exactly when it adopted a warm pod and isolated
  // it, or got as far as its own pod and found that up; and the status could be written.
  lemma CreatingEndsInRunning(sandbox: string, w: World, p: Pass)
    requires InCreation(w, p)
    ensures Dispatch(sandbox, w, p).world.status.phase.Running? <==>
              && WriteStatus !in p.faults
              && (|| (!p.template.ResolveFailed? && WarmStart(w, p) && EnsureNetpol !in p.faults)
                  || (ReachesPod(w, p) && IsUp(w.pods, sandbox + "-pod")))
  {
    var plan := CreatingPlan(sandbox, w, p);
    StatusOfCommit(sandbox, Awake(w), plan, p);
  }

  lemma StatusOfCommit(sandbox: string, w: World, plan: Plan, p: Pass)
    ensures var o := Commit(sandbox, w, plan, p);
            && o.world.status == (if plan.move.Rest? || WriteStatus in p.faults then w.status
                                  else StatusAfter(sandbox, w.status, w.clock, plan.move))
            && o.result == if plan.move.Rest? || WriteStatus !in p.faults then plan.result else Failed
  {
  }

  // It ends in Error exactly when some step but the look at the pod fails, or the pod is down.
  lemma CreatingEndsInError(sandbox: string, w: World, p: Pass)
    requires InCreation(w, p)
    ensures Dispatch(sandbox, w, p).world.status.phase.Error? <==>
              && WriteStatus !in p.faults
              && (|| p.template.ResolveFailed?
                  || (WarmStart(w, p) && EnsureNetpol in p.faults)
                  || (!WarmStart(w, p) && !ReachesIsolation(w, p))
                  || (ReachesPod(w, p) && sandbox + "-pod" !in w.pods && CreatePod in p.faults)
                  || (ReachesPod(w, p) && IsDown(w.pods, sandbox + "-pod")))
  {
    var plan := CreatingPlan(sandbox, w, p);
    StatusOfCommit(sandbox, Awake(w), plan, p);
  }

  // What the pass leaves in the cluster, whatever becomes of the status.
  lemma CreatingLeaves(sandbox: string, w: World, p: Pass)
    requires InCreation(w, p)
    ensures var w' := Dispatch(sandbox, w, p).world;
            var pod, pvc := sandbox + "-pod", sandbox + "-workspace";
            && w'.pvcs == (if ReachesClaim(w, p) then w.pvcs + {pvc} else w.pvcs)
            && (w'.netpol <==>
                  || w.netpol || ReachesIsolation(w, p)
                  || (!p.template.ResolveFailed? && WarmStart(w, p) && EnsureNetpol !in p.faults))
            && w'.pods == (if ReachesPod(w, p) && pod !in w.pods && CreatePod !in p.faults
                           then w.pods[pod := Pod(PodPending, false, [], "", pvc)] else w.pods)
            && w'.stopRequested == w.stopRequested && Attended(w') && w'.clock == w.clock
  {
    var plan := CreatingPlan(sandbox, w, p);
    ObjectsOfCommit(sandbox, Awake(w), plan, p);
    CommitKeepsTheRest(sandbox, Awake(w), plan, p);
  }

  lemma ObjectsOfCommit(sandbox: string, w: World, plan: Plan, p: Pass)
    requires !plan.gone && !plan.cleared
    ensures var w' := Commit(sandbox, w, plan, p).world;
            && w'.pvcs == (if plan.claimed then w.pvcs + {sandbox + "-workspace"} else w.pvcs)
            && w'.netpol == (w.netpol || plan.isolated)
            && w'.pods == (if plan.built
                           then w.pods[sandbox + "-pod" := Pod(PodPending, false, [], "", sandbox + "-workspace")]
                           else w.pods)
  {
  }

  lemma CommitKeepsTheRest(sandbox: string, w: World, plan: Plan, p: Pass)
    requires !plan.cleared
    ensures var w' := Commit(sandbox, w, plan, p).world;
            && w'.stopRequested == w.stopRequested && w'.clock == w.clock
            && w'.present == w.present && w'.finalizer == w.finalizer && w'.deleting == w.deleting
  {
  }

  // A status written as Running has its fields.
  lemma RunningHasItsFields(sandbox: string, w: World, p: Pass)
    requires InCreation(w, p) && Dispatch(sandbox, w, p).world.status.phase.Running?
    ensures var st := Dispatch(sandbox, w, p).world.status;
            && st.startedAt == st.lastActivity == Some(w.clock) && st.message == NoMessage
            && st.restartCount == w.status.restartCount
            && st.podName == (if WarmStart(w, p) then p.claim.pod else sandbox + "-pod")
            && st.pvcName == (if WarmStart(w, p) then p.claim.pvc else sandbox + "-workspace")
    ensures Dispatch(sandbox, w, p).result == RequeueAfter(30 * SECOND)
  {
    var plan := CreatingPlan(sandbox, w, p);
    StatusOfCommit(sandbox, Awake(w), plan, p);
  }

  // Without a move to Running or Error the sandbox stays in Creating: with its new pod's name and
  // claim, or as it was; and it looks again in a second unless a call failed.
  lemma CreatingStays(sandbox: string, w: World, p: Pass)
    requires InCreation(w, p) && Dispatch(sandbox, w, p).world.status.phase.Creating?
    ensures var o := Dispatch(sandbox, w, p);
            var created := w.status.(phase := Creating);
            && (o.result == RequeueAfter(SECOND) || o.result == Failed)
            && (o.result == RequeueAfter(SECOND) ==>
                  && ReachesPod(w, p)
                  && o.world.status ==
                       if sandbox + "-pod" in w.pods then created
                       else created.(podName := sandbox + "-pod", pvcName := sandbox + "-workspace"))
            && (o.result == Failed ==> o.world.status == created && !({ReadPod, WriteStatus} !! p.faults))
  {
    var plan := CreatingPlan(sandbox, w, p);
    StatusOfCommit(sandbox, Awake(w), plan, p);
  }

  // An Error of this phase has a plain reason, and keeps the counter, pod name and start.
  lemma CreatingErrorIsPlain(sandbox: string, w: World, p: Pass)
    requires InCreation(w, p) && Dispatch(sandbox, w, p).world.status.phase.Error?
    ensures var o := Dispatch(sandbox, w, p);
            && o.result == Done && o.world.status.message.Reason?
            && o.world.status == w.status.(phase := Error, message := o.world.status.message,
                 pvcName := if ReachesClaim(w, p) then sandbox + "-workspace" else w.status.pvcName)
  {
    var plan := CreatingPlan(sandbox, w, p);
    StatusOfCommit(sandbox, Awake(w), plan, p);
  }

  // A pod that is down gives its own reason.
  lemma DownPodIsQuoted(sandbox: string, w: World, p: Pass)
    requires InCreation(w, p) && ReachesPod(w, p) && IsDown(w.pods, sandbox + "-pod") && WriteStatus !in p.faults
    ensures Dispatch(sandbox, w, p).world.status.message ==
              Reason("Pod failed: " + FailureReason(w.pods[sandbox + "-pod"]))
  {
    var plan := CreatingPlan(sandbox, w, p);
    StatusOfCommit(sandbox, Awake(w), plan, p);
  }

  predicate Speaks(c: ContainerState) {
    c.Terminated? || (c.Waiting? && c.reason == "CrashLoopBackOff")
  }

  // That reason is the first speaking container's.
  lemma {:induction false} ReasonIsTheFirst(containers: seq<ContainerState>, k: nat)
    requires k < |containers| && Speaks(containers[k]) && forall j | 0 <= j < k :: !Speaks(containers[j])
    ensures FailureReasonFrom(containers) ==
              match containers[k]
              case Terminated(reason, message) => Some(reason + ": " + message)
              case _ => Some("CrashLoopBackOff")
  {
    if k > 0 {
      assert !Speaks(containers[0]);
      ReasonIsTheFirst(containers[1..], k - 1);
    }
  }

  // Where no container speaks, it is the pod's own, or unknown.
  lemma {:induction false} SilentContainersGiveNoReason(pod: Pod)
    requires forall j | 0 <= j < |pod.containers| :: !Speaks(pod.containers[j])
    ensures FailureReason(pod) == if pod.reason == "" then "Unknown failure" else pod.reason
    decreases |pod.containers|
  {
    if pod.containers != [] {
      assert !Speaks(pod.containers[0]);
      SilentContainersGiveNoReason(pod.(containers := pod.containers[1..]));
    }
  }

  // The object's first write fails: nothing happens.
  lemma UnwrittenFreshStays(sandbox: string, w: World, p: Pass)
    requires Attended(w) && w.status.phase.Fresh? && WriteCreating in p.faults
    ensures Dispatch(sandbox, w, p) == Outcome(w, Failed)
  {
  }

  // Cold start, whole: one pass builds the pod, the pod comes up, and the next pass ends in Running
  // on it.
  lemma ColdStartSucceeds(sandbox: string, w: World, p: Pass, wait: nat, up: map<string, Pod>, q: Pass)
    requires InCreation(w, p) && p.faults == {} && q.faults == {}
    requires !p.template.ResolveFailed? && !WarmStart(w, p) && !q.template.ResolveFailed?
    requires sandbox + "-pod" !in w.pods && IsUp(up, sandbox + "-pod")
    ensures var built := Next(sandbox, w, Reconcile(p));
            var later := Next(sandbox, Next(sandbox, built, Tick(wait)), PodsChange(up));
            var end := Next(sandbox, later, Reconcile(q));
            && sandbox + "-pod" in built.pods && built.pods[sandbox + "-pod"].mounts == sandbox + "-workspace"
            && built.status.phase.Creating? && built.status.podName == sandbox + "-pod"
            && end.status.phase.Running? && end.netpol && sandbox + "-workspace" in end.pvcs
            && end.status.podName == sandbox + "-pod" && end.status.pvcName == sandbox + "-workspace"
            && end.status.startedAt == end.status.lastActivity == Some(w.clock + wait)
  {
    var built := Next(sandbox, w, Reconcile(p));
    var later := Next(sandbox, Next(sandbox, built, Tick(wait)), PodsChange(up));
    CreatingLeaves(sandbox, w, p);
    CreatingEndsInRunning(sandbox, w, p);
    CreatingEndsInError(sandbox, w, p);
    CreatingIsCreatingRunningOrError(sandbox, w, p);
    CreatingStays(sandbox, w, p);
    assert built.status.podName == sandbox + "-pod";
    PodNameIsNoBlank(sandbox);
    assert !WarmStart(later, q);
    CreatingEndsInRunning(sandbox, later, q);
    CreatingLeaves(sandbox, later, q);
    RunningHasItsFields(sandbox, later, q);
  }

  lemma PodNameIsNoBlank(sandbox: string)
    ensures sandbox + "-pod" != ""
  {
    assert |sandbox + "-pod"| == |sandbox| + 4;
  }

  lemma CreatingIsCreatingRunningOrError(sandbox: string, w: World, p: Pass)
    requires InCreation(w, p)
    ensures var phase := Dispatch(sandbox, w, p).world.status.phase; phase.Creating? || phase.Running? || phase.Error?
  {
    var plan := CreatingPlan(sandbox, w, p);
    StatusOfCommit(sandbox, Awake(w), plan, p);
  }

  /******* Running *******/

  predicate Minded(w: World) {
    Attended(w) && w.status.phase.Running?
  }

  // The pass gets to look at the pod.
  predicate LooksAtPod(w: World, p: Pass) {
    Minded(w) && w.status.podName != "" && !w.stopRequested && ReadPod !in p.faults
  }

  // A container state by which the application itself ended, and one by which it was ended.
  predicate EndedByApplication(c: ContainerState) {
    c.Terminated? && (c.reason == "Completed" || c.reason == "Error")
  }

  predicate EndedFromOutside(c: ContainerState) {
    || (c.Terminated? && (c.reason == "OOMKilled" || c.reason == "Evicted"))
    || (c.Waiting? && c.reason == "CrashLoopBackOff")
  }

  // The first container that says which it was says the application.
  predicate ApplicationFailed(containers: seq<ContainerState>) {
    exists k :: 0 <= k < |containers| && FirstToSay(containers, k) && EndedByApplication(containers[k])
  }

  predicate FirstToSay(containers: seq<ContainerState>, k: nat)
    requires k < |containers|
  {
    forall j :: 0 <= j < k ==> !EndedByApplication(containers[j]) && !EndedFromOutside(containers[j])
  }

  lemma {:induction false} VerdictIsTheFirst(containers: seq<ContainerState>)
    ensures InfrastructureVerdict(containers) == Some(false) <==> ApplicationFailed(containers)
  {
    if containers != [] {
      var first, rest := containers[0], containers[1..];
      VerdictIsTheFirst(rest);
      if EndedByApplication(first) {
        assert FirstToSay(containers, 0);
      } else if !EndedFromOutside(first) {
        if ApplicationFailed(rest) {
          var k :| 0 <= k < |rest| && FirstToSay(rest, k) && EndedByApplication(rest[k]);
          assert forall j :: 0 <= j < k + 1 ==> containers[j] == if j == 0 then first else rest[j - 1];
          assert FirstToSay(containers, k + 1) && containers[k + 1] == rest[k];
        }
        if ApplicationFailed(containers) {
          var k :| 0 <= k < |containers| && FirstToSay(containers, k) && EndedByApplication(containers[k]);
          assert forall j :: 0 <= j < k - 1 ==> rest[j] == containers[j + 1];
          assert FirstToSay(rest, k - 1) && rest[k - 1] == containers[k];
        }
      }
    }
  }

  // The status after a pod was lost: a retry while the budget lasts, else an Error for good.
  predicate Retried(st: Status, st': Status) {
    var n := st.restartCount + 1;
    if n < 5 then
      && st'.message.RetryPending? && st'.message.attempt == n && st'.message.wait == BackoffDelay(n)
      && st' == st.(phase := Error, podName := "", restartCount := n, message := st'.message)
    else st'.message.Reason? && st' == st.(phase := Error, restartCount := n, message := st'.message)
  }

  predicate RetriedOrFailed(w: World, p: Pass, o: Outcome) {
    && o.world == w.(status := o.world.status)
    && if WriteStatus in p.faults then o == Outcome(w, Failed)
       else Retried(w.status, o.world.status) && o.result == if w.status.restartCount + 1 < 5 then Requeue else Done
  }

  // A pod that disappeared is retried.
  lemma VanishedPodIsRetried(sandbox: string, w: World, p: Pass)
    requires LooksAtPod(w, p) && w.status.podName !in w.pods
    ensures RetriedOrFailed(w, p, Dispatch(sandbox, w, p))
  {
  }

  // A failed pod is retried exactly unless the application itself failed; that is an Error for good
  // and costs no restart.
  lemma FailedPodIsJudged(sandbox: string, w: World, p: Pass)
    requires LooksAtPod(w, p) && IsDown(w.pods, w.status.podName)
    ensures var o, pod := Dispatch(sandbox, w, p), w.pods[w.status.podName];
            if !ApplicationFailed(pod.containers) then RetriedOrFailed(w, p, o)
            else if WriteStatus in p.faults then o == Outcome(w, Failed)
            else o == Outcome(w.(status := w.status.(phase := Error,
                                 message := Reason("Pod failed: " + FailureReason(pod)))), Done)
  {
    VerdictIsTheFirst(w.pods[w.status.podName].containers);
  }

  // A stop: the pod goes, then the status says so; either call may fail.
  predicate Stops(w: World, p: Pass, reason: string, o: Outcome) {
    var name := w.status.podName;
    if name != "" && DeletePod in p.faults then o == Outcome(w, Failed)
    else
      var gone := if name != "" then w.(pods := w.pods - {name}, log := w.log + [PodDeleted(w.clock, name)]) else w;
      if WriteStatus in p.faults then o == Outcome(gone, Failed)
      else o == Outcome(gone.(status := w.status.(phase := Stopped, podName := "", startedAt := None,
                                                  message := Reason(reason))), Done)
  }

  lemma CompletedPodIsStopped(sandbox: string, w: World, p: Pass)
    requires LooksAtPod(w, p) && w.status.podName in w.pods && w.pods[w.status.podName].phase == PodSucceeded
    ensures Stops(w, p, "Sandbox process completed (pod exited 0)", Dispatch(sandbox, w, p))
  {
  }

  lemma RequestedStop(sandbox: string, w: World, p: Pass)
    requires Minded(w) && w.status.podName != "" && w.stopRequested
    ensures var o := Dispatch(sandbox, w, p);
            if ClearAnnotation in p.faults then o == Outcome(w, Failed)
            else Stops(w.(stopRequested := false), p, "User requested stop", o)
  {
  }

  predicate PastLimit(since: Option<Time>, limit: Option<Time>, now: Time) {
    since.Some? && limit.Some? && limit.value > 0 && since.value + limit.value <= now
  }

  predicate PastWindow(st: Status, now: Time) {
    st.restartCount > 0 && st.startedAt.Some? && st.startedAt.value + 300 * SECOND <= now
  }

  predicate HasPodToKeep(w: World, p: Pass) {
    && LooksAtPod(w, p) && w.status.podName in w.pods
    && (w.pods[w.status.podName].phase == PodRunning || w.pods[w.status.podName].phase == PodPending)
  }

  // A pod that neither failed nor completed: the counter is reset on a ready one when the window
  // has passed; the idle limit stops before the runtime limit; otherwise nothing changes.
  lemma KeptPodIsTimed(sandbox: string, w: World, p: Pass)
    requires HasPodToKeep(w, p)
    ensures var o, st := Dispatch(sandbox, w, p), w.status;
            if PastWindow(st, w.clock) && IsUp(w.pods, st.podName) then
              o == if WriteStatus in p.faults then Outcome(w, Failed)
                   else Outcome(w.(status := st.(restartCount := 0), log := w.log + [CounterReset(w.clock)]), Requeue)
            else if PastLimit(st.lastActivity, p.idleTimeout, w.clock) then Stops(w, p, "Idle timeout exceeded", o)
            else if PastLimit(st.startedAt, p.timeout, w.clock) then Stops(w, p, "Max runtime exceeded", o)
            else o.world == w && o.result.RequeueAfter? && 0 < o.result.delay < 32 * SECOND
  {
  }

  // A pod that cannot be read changes nothing; a status without a pod's name is an Error.
  lemma UnreadPodChangesNothing(sandbox: string, w: World, p: Pass)
    requires Minded(w) && w.status.podName != "" && !w.stopRequested && ReadPod in p.faults
    ensures Dispatch(sandbox, w, p) == Outcome(w, Failed)
  {
  }

  lemma NamelessPodIsAnError(sandbox: string, w: World, p: Pass)
    requires Minded(w) && w.status.podName == ""
    ensures Dispatch(sandbox, w, p) ==
              if WriteStatus in p.faults then Outcome(w, Failed)
              else Outcome(w.(status := w.status.(phase := Error,
                              message := Reason("Pod name not set in Running state"))), Done)
  {
  }

  /******* Error, Stopped and the rest *******/

  // An Error is left only for a pending retry under the limit whose backoff since the start has
  // passed, and until then the pass asks to be woken exactly then.
  lemma ErrorWaitsForItsBackoff(sandbox: string, w: World, p: Pass)
    requires Attended(w) && w.status.phase.Error?
    ensures var o, st := Dispatch(sandbox, w, p), w.status;
            var due := if st.startedAt.Some? then st.startedAt.value + BackoffDelay(st.restartCount) else w.clock;
            if st.restartCount >= 5 then o == Outcome(w, Done)
            else if !st.message.RetryPending? then o == Outcome(w, RequeueAfter(30 * SECOND))
            else if w.clock < due then o == Outcome(w, RequeueAfter(due - w.clock))
            else if WriteStatus in p.faults then o == Outcome(w, Failed)
            else o == Outcome(w.(status := st.(phase := Creating, message := NoMessage),
                                 log := w.log + [AutoRestart(w.clock, due)]), Requeue)
  {
  }

  lemma RestsUntilResumed(sandbox: string, w: World, p: Pass)
    requires Attended(w) && (w.status.phase.Stopped? || w.status.phase.Deleting?)
    ensures Dispatch(sandbox, w, p) == Outcome(w, Done)
  {
  }

  // Before anything else the finalizer is put on, and an object that is gone is left alone.
  lemma FinalizerComesFirst(sandbox: string, w: World, p: Pass)
    requires !Attended(w) && (w.present ==> !w.deleting)
    ensures Dispatch(sandbox, w, p) ==
              if !w.present then Outcome(w, Done)
              else if WriteFinalizer in p.faults then Outcome(w, Failed)
              else Outcome(w.(finalizer := true), Requeue)
  {
  }

  /******* Deletion *******/

  // The calls a deletion makes, in order; the pod's and the claim's only if there is one.
  function DeletionCalls(w: World): seq<Call> {
    (if w.status.podName != "" then [DeletePod] else []) + (if w.status.pvcName != "" then [DeletePvc] else [])
    + [DeleteNetpol, RevokeKey, WriteFinalizer]
  }

  // A deletion is complete exactly when none of its calls fails.
  lemma DeletionCompletes(sandbox: string, w: World, p: Pass)
    requires w.present && w.deleting && w.finalizer
    ensures var o := Dispatch(sandbox, w, p);
            && (!o.world.finalizer <==> forall call :: call in DeletionCalls(w) ==> call !in p.faults)
            && (o.result == Done <==> !o.world.finalizer) && (o.result == Done || o.result == Failed)
            && o.world.present == o.world.finalizer
  {
  }

  // What a pass that stops short has already taken away.
  lemma DeletionGoesInOrder(sandbox: string, w: World, p: Pass)
    requires w.present && w.deleting && w.finalizer
    ensures var w' := Dispatch(sandbox, w, p).world;
            var pod := w.status.podName == "" || DeletePod !in p.faults;
            var claim := pod && (w.status.pvcName == "" || DeletePvc !in p.faults);
            && w'.pods == (if pod && w.status.podName != "" then w.pods - {w.status.podName} else w.pods)
            && w'.pvcs == (if claim && w.status.pvcName != "" then w.pvcs - {w.status.pvcName} else w.pvcs)
            && w'.netpol == (w.netpol && !(claim && DeleteNetpol !in p.faults))
            && w'.status == w.status && w'.stopRequested == w.stopRequested
            && w'.log == w.log + If(pod && w.status.podName != "", PodDeleted(w.clock, w.status.podName))
                 + If(claim && w.status.pvcName != "", PvcDeleted(w.clock, w.status.pvcName))
                 + If(claim && DeleteNetpol !in p.faults, NetpolDeleted(w.clock))
                 + If(claim && {DeleteNetpol, RevokeKey} !! p.faults, KeyRevoked(w.clock))
                 + If(claim && {DeleteNetpol, RevokeKey, WriteFinalizer} !! p.faults, FinalizerRemoved(w.clock))
  {
    forall log, condition, e ensures Note(log, condition, e) == log + If(condition, e) {
    }
  }

  function If(condition: bool, e: Event): seq<Event> {
    if condition then [e] else []
  }

  lemma DeletedWithoutFinalizerRests(sandbox: string, w: World, p: Pass)
    requires w.present && w.deleting && !w.finalizer
    ensures Dispatch(sandbox, w, p) == Outcome(w, Done)
  {
  }

  /******* Users *******/

  // A stop is noted on a running sandbox; a resume sends a stopped or failed one back to Creating
  // and keeps its counter, claim and start. Neither touches any other sandbox.
  lemma UsersAct(sandbox: string, w: World)
    requires w.present
    ensures var stopped, resumed := Next(sandbox, w, UserStop), Next(sandbox, w, UserResume);
            && stopped == w.(stopRequested := w.stopRequested || w.status.phase.Running?)
            && (if w.status.phase.Stopped? || w.status.phase.Error?
                then resumed == w.(status := w.status.(phase := Creating, message := Resuming))
                else resumed == w)
  {
  }

  lemma DirectStopStops(sandbox: string, w: World, reason: string, p: Pass)
    ensures var o := DirectStop(sandbox, w, reason, p);
            if w.status.phase.Running? then Stops(w, p, reason, o) else o == Outcome(w, Failed)
  {
  }

  // A resume by call needs the recorded claim to be there.
  lemma DirectResumeNeedsItsClaim(w: World, p: Pass)
    ensures var o := DirectResume(w, p);
            var st := w.status;
            if && (st.phase.Stopped? || st.phase.Error?)
               && (st.pvcName == "" || (ReadPvc !in p.faults && st.pvcName in w.pvcs))
               && WriteStatus !in p.faults
            then
              o == Outcome(w.(status := st.(phase := Creating, message := Resuming, startedAt := Some(w.clock))), Done)
            else o == Outcome(w, Failed)
  {
  }

  /******* The log tells what happened *******/

  function Added(w: World, w': World): seq<Event>
    requires |w.log| <= |w'.log|
  {
    w'.log[|w.log|..]
  }

  // What a plan that may be made adds to the log.
  lemma CommitLogs(sandbox: string, w: World, plan: Plan, p: Pass)
    ensures var w' := Commit(sandbox, w, plan, p).world;
            var written := WriteStatus !in p.faults;
            w'.log == w.log + (If(plan.built, PodBuilt(w.clock, sandbox + "-pod", sandbox + "-workspace"))
                               + If(plan.gone, PodDeleted(w.clock, w.status.podName))
                               + If(written && plan.move.Reset?, CounterReset(w.clock))
                               + If(written && plan.move.Restart?, AutoRestart(w.clock, RestartFrom(plan.move))))
  {
  }

  function RestartFrom(m: Move): Time {
    if m.Restart? then m.notBefore else 0
  }

  predicate Tells(log: seq<Event>, restarted: bool, reset: bool, built: bool) {
    && ((exists e :: e in log && e.AutoRestart?) <==> restarted)
    && ((exists e :: e in log && e.CounterReset?) <==> reset)
    && ((exists e :: e in log && e.PodBuilt?) <==> built)
  }

  lemma EntriesTell(built: bool, b: Event, gone: bool, g: Event, reset: bool, r: Event, restarted: bool, a: Event)
    requires b.PodBuilt? && g.PodDeleted? && r.CounterReset? && a.AutoRestart?
    ensures Tells(If(built, b) + If(gone, g) + If(reset, r) + If(restarted, a), restarted, reset, built)
  {
    var log := If(built, b) + If(gone, g) + If(reset, r) + If(restarted, a);
    assert forall e :: e in log <==>
             (built && e == b) || (gone && e == g) || (reset && e == r) || (restarted && e == a);
  }

  // The entries of a pass say exactly what it did: a restart, a reset, a pod built.
  lemma LogIsTrue(sandbox: string, w: World, p: Pass)
    requires Attended(w) && (w.status.phase.Fresh? ==> WriteCreating !in p.faults)
    ensures var w' := Next(sandbox, w, Reconcile(p));
            && |w.log| <= |w'.log| && w'.log[..|w.log|] == w.log
            && Tells(Added(w, w'),
                     w.status.phase.Error? && w'.status.phase.Creating?,
                     w.status.restartCount > 0 && w'.status.restartCount == 0,
                     sandbox + "-pod" !in w.pods && sandbox + "-pod" in w'.pods)
  {
    var plan := PlanPhase(sandbox, Awake(w), p);
    var w' := Next(sandbox, w, Reconcile(p));
    CommitLogs(sandbox, Awake(w), plan, p);
    var written := WriteStatus !in p.faults;
    var reset, restart := written && plan.move.Reset?, written && plan.move.Restart?;
    EntriesTell(plan.built, PodBuilt(w.clock, sandbox + "-pod", sandbox + "-workspace"),
                plan.gone, PodDeleted(w.clock, w.status.podName),
                reset, CounterReset(w.clock), restart, AutoRestart(w.clock, RestartFrom(plan.move)));
    assert w'.log[|w.log|..] == If(plan.built, PodBuilt(w.clock, sandbox + "-pod", sandbox + "-workspace"))
                                + If(plan.gone, PodDeleted(w.clock, w.status.podName))
                                + If(reset, CounterReset(w.clock))
                                + If(restart, AutoRestart(w.clock, RestartFrom(plan.move)));
    MoveIsVisible(sandbox, w, p);
  }

  lemma MoveIsVisible(sandbox: string, w: World, p: Pass)
    requires Attended(w) && (w.status.phase.Fresh? ==> WriteCreating !in p.faults)
    ensures var plan := PlanPhase(sandbox, Awake(w), p);
            var w' := Next(sandbox, w, Reconcile(p));
            && (plan.move.Restart? && WriteStatus !in p.faults <==> w.status.phase.Error? && w'.status.phase.Creating?)
            && (plan.move.Reset? && WriteStatus !in p.faults <==>
                  w.status.restartCount > 0 && w'.status.restartCount == 0)
            && (plan.built <==> sandbox + "-pod" !in w.pods && sandbox + "-pod" in w'.pods)
  {
    if w.status.phase.Creating? || w.status.phase.Fresh? {
      DispatchCommits(sandbox, w, p);
      CreatingIsVisible(sandbox, w, p);
    } else {
      PlanIsEnabled(sandbox, w, p);
      StatusOfCommit(sandbox, w, PlanPhase(sandbox, w, p), p);
    }
  }

  lemma CreatingIsVisible(sandbox: string, w: World, p: Pass)
    requires InCreation(w, p)
    ensures var plan, w' := PlanCreating(sandbox, Awake(w), p), Dispatch(sandbox, w, p).world;
            && !plan.move.Restart? && !plan.move.Reset?
            && w'.status.restartCount == w.status.restartCount
            && (plan.built <==> sandbox + "-pod" !in w.pods && sandbox + "-pod" in w'.pods)
  {
    DispatchCommits(sandbox, w, p);
    var plan := PlanCreating(sandbox, Awake(w), p);
    if p.template.ResolveFailed? {
    } else if WarmStart(w, p) {
      WarmMove(sandbox, w, p);
    } else {
      ColdMove(sandbox, w, p);
    }
    assert CreatingMove(sandbox, w, p, plan);
    StatusOfCommit(sandbox, Awake(w), plan, p);
    ObjectsOfCommit(sandbox, Awake(w), plan, p);
    CommitKeepsTheRest(sandbox, Awake(w), plan, p);
  }
}
