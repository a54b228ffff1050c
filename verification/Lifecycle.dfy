/** The sandbox lifecycle protocol, as functions on values.

    `World` is what the API server stores about one sandbox: its status, the stop annotation, the
    finalizer, its child objects, plus a log of committed effects. A pass decides on a `Plan` and
    `Commit` gives its effect; `SandboxReconciler.dfy` holds the methods proved against them.
    Every API call of a pass may fail: `Pass.faults` names the ones that do. Everything outside
    the controller is a further `Step`.
 */
module Lifecycle {
  import opened Wrappers
  import opened Api

  // Nanoseconds on one clock, as Go's time.Duration counts them.
  type Time = int

  const SECOND: Time := 1_000_000_000
  const DEFAULT_REQUEUE_DELAY: Time := 30 * SECOND
  const MAX_RESTART_COUNT: nat := 5
  const RESTART_COUNT_RESET_WINDOW: Time := 300 * SECOND
  const MAX_BACKOFF: Time := 160 * SECOND

  /******* Sandbox status *******/

  // RetryPending is the message written on an infrastructure failure. It is the only one that
  // carries the marker the automatic restart looks for.
  datatype Message =
    | NoMessage
    | Resuming
    | Reason(text: string)
    | RetryPending(reason: string, wait: Time, attempt: nat)

  datatype Status = Status(
    phase: Phase,
    podName: string,
    pvcName: string,
    startedAt: Option<Time>,
    lastActivity: Option<Time>,
    restartCount: nat,
    message: Message
  )

  /******* Child objects *******/

  datatype PodPhase = PodPending | PodRunning | PodSucceeded | PodFailed

  datatype ContainerState =
    | ContainerRunning
    | Waiting(reason: string)
    | Terminated(reason: string, message: string)

  datatype Pod = Pod(
    phase: PodPhase,
    readyCondition: bool,
    containers: seq<ContainerState>,
    reason: string,
    mounts: string
  )

  predicate PodReady(pod: Pod) {
    pod.phase.PodRunning? && pod.readyCondition
  }

  function FailureReasonFrom(containers: seq<ContainerState>): Option<string> {
    if containers == [] then None
    else match containers[0]
      case Terminated(reason, message) => Some(reason + ": " + message)
      case Waiting(reason) =>
        if reason == "CrashLoopBackOff" then Some(reason) else FailureReasonFrom(containers[1..])
      case ContainerRunning => FailureReasonFrom(containers[1..])
  }

  function FailureReason(pod: Pod): string {
    match FailureReasonFrom(pod.containers)
    case Some(text) => text
    case None => if pod.reason != "" then pod.reason else "Unknown failure"
  }

  // The first container state that decides whether a failure is the infrastructure's.
  function InfrastructureVerdict(containers: seq<ContainerState>): Option<bool> {
    if containers == [] then None
    else match containers[0]
      case Terminated("OOMKilled", _) => Some(true)
      case Terminated("Evicted", _) => Some(true)
      case Terminated("Completed", _) => Some(false)
      case Terminated("Error", _) => Some(false)
      case Waiting("CrashLoopBackOff") => Some(true)
      case _ => InfrastructureVerdict(containers[1..])
  }

  // A pod that is gone, and any pod without a verdict, counts as an infrastructure failure.
  predicate IsInfrastructureFailure(pod: Option<Pod>) {
    match pod
    case None => true
    case Some(p) => InfrastructureVerdict(p.containers) != Some(false)
  }

  /******* Backoff *******/

  function Pow2(n: nat): nat {
    if n == 0 then 1 else 2 * Pow2(n - 1)
  }

  // Go's signed 64-bit wrap-around.
  function Wrap64(x: int): int {
    var m := x % 0x1_0000_0000_0000_0000;
    if m < 0x8000_0000_0000_0000 then m else m - 0x1_0000_0000_0000_0000
  }

  function BackoffDelay(restartCount: nat): Time {
    var delay := Wrap64(Wrap64(10 * Pow2(restartCount)) * SECOND);
    if delay > MAX_BACKOFF then MAX_BACKOFF else delay
  }

  /******* World *******/

  // Effects in the order they were committed.
  datatype Event =
    | AutoRestart(at: Time, notBefore: Time)
    | CounterReset(at: Time)
    | PodBuilt(at: Time, pod: string, pvc: string)
    | PodDeleted(at: Time, pod: string)
    | PvcDeleted(at: Time, pvc: string)
    | NetpolDeleted(at: Time)
    | KeyRevoked(at: Time)
    | FinalizerRemoved(at: Time)

  datatype World = World(
    clock: Time,
    present: bool,
    deleting: bool,
    finalizer: bool,
    stopRequested: bool,
    status: Status,
    pods: map<string, Pod>,
    pvcs: set<string>,
    netpol: bool,
    log: seq<Event>
  )

  function PodNameOf(sandbox: string): string {
    sandbox + "-pod"
  }

  function WorkspaceOf(sandbox: string): string {
    sandbox + "-workspace"
  }

  const FRESH_STATUS := Status(Fresh, "", "", None, None, 0, NoMessage)

  function Initial(clock: Time, pods: map<string, Pod>, pvcs: set<string>): World {
    World(clock, true, false, false, false, FRESH_STATUS, pods, pvcs, false, [])
  }

  /******* One reconcile pass *******/

  // The API calls of a pass that can fail.
  datatype Call =
    | WriteCreating | ReadClaimedPod | AdoptClaimedPod | EnsureNetpol | WriteStatus
    | EnsureRuntimeToken | EnsureScopedKey | EnsurePvc | ReadPod | CreatePod
    | ClearAnnotation | DeletePod | DeletePvc | DeleteNetpol | RevokeKey | WriteFinalizer | ReadPvc

  datatype TemplateLookup = NoTemplate | ResolveFailed | Resolved(name: string, useHTTPExec: bool)

  // What the warm pool answered; an empty pod name is "nothing to claim".
  datatype Claim = ClaimError | Claimed(pod: string, pvc: string)

  datatype Pass = Pass(
    faults: set<Call>,
    template: TemplateLookup,
    inPoolNamespace: bool,
    claim: Claim,
    idleTimeout: Option<Time>,
    timeout: Option<Time>
  )

  datatype ReconcileResult = Done | Requeue | RequeueAfter(delay: Time) | Failed

  datatype Outcome = Outcome(world: World, result: ReconcileResult)

  /******* Moves: the status changes a pass can decide on *******/

  datatype Move =
    | Rest
    | StartWarm(pod: string, pvc: string)
    | StartCold
    | Build
    | Fail(text: string, pvc: string, count: nat)
    | Halt(reason: string)
    | Retry(reason: string)
    | Reset
    | Restart(notBefore: Time)

  function Started(st: Status, pod: string, pvc: string, now: Time): Status {
    st.(phase := Running, podName := pod, pvcName := pvc, startedAt := Some(now), lastActivity := Some(now),
        message := NoMessage)
  }

  // The status a move writes.
  function StatusAfter(sandbox: string, st: Status, now: Time, m: Move): Status {
    match m
    case Rest => st
    case StartWarm(pod, pvc) => Started(st, pod, pvc, now)
    case StartCold => Started(st, PodNameOf(sandbox), WorkspaceOf(sandbox), now)
    case Build => st.(phase := Creating, pvcName := WorkspaceOf(sandbox), podName := PodNameOf(sandbox))
    case Fail(text, pvc, count) =>
      st.(phase := Error, message := Reason(text), pvcName := pvc, restartCount := count)
    case Halt(reason) => st.(phase := Stopped, podName := "", startedAt := None, message := Reason(reason))
    case Retry(reason) =>
      var n := st.restartCount + 1;
      st.(phase := Error, podName := "", restartCount := n, message := RetryPending(reason, BackoffDelay(n), n))
    case Reset => st.(restartCount := 0)
    case Restart(_) => st.(phase := Creating, message := NoMessage)
  }

  // The event recorded with a move's status write.
  function Announce(log: seq<Event>, now: Time, m: Move): seq<Event> {
    match m
    case Reset => log + [CounterReset(now)]
    case Restart(notBefore) => log + [AutoRestart(now, notBefore)]
    case _ => log
  }

  // What a pass does: the objects it touches on the way, the move it ends in, what it answers.
  // `claimed` and `isolated` are the claim and the NetworkPolicy being in place, `gone` the
  // recorded pod's delete, `cleared` the stop annotation's.
  datatype Plan = Plan(
    move: Move,
    result: ReconcileResult,
    claimed: bool := false,
    isolated: bool := false,
    built: bool := false,
    gone: bool := false,
    cleared: bool := false
  )

  function Quiet(result: ReconcileResult): Plan {
    Plan(Rest, result)
  }

  function Note(log: seq<Event>, condition: bool, event: Event): seq<Event> {
    if condition then log + [event] else log
  }

  // The objects a plan touches stay touched; its status is written unless that call fails.
  function Commit(sandbox: string, w: World, plan: Plan, p: Pass): Outcome {
    var pending := Pod(PodPending, false, [], "", WorkspaceOf(sandbox));
    var pods := if plan.built then w.pods[PodNameOf(sandbox) := pending] else w.pods;
    var touched := w.(
      stopRequested := w.stopRequested && !plan.cleared,
      pvcs := if plan.claimed then w.pvcs + {WorkspaceOf(sandbox)} else w.pvcs,
      netpol := w.netpol || plan.isolated,
      pods := if plan.gone then pods - {w.status.podName} else pods,
      log := Note(Note(w.log, plan.built, PodBuilt(w.clock, PodNameOf(sandbox), WorkspaceOf(sandbox))),
                  plan.gone, PodDeleted(w.clock, w.status.podName)));
    if plan.move.Rest? then Outcome(touched, plan.result)
    else if WriteStatus in p.faults then Outcome(touched, Failed)
    else Outcome(touched.(status := StatusAfter(sandbox, w.status, w.clock, plan.move),
                          log := Announce(touched.log, w.clock, plan.move)), plan.result)
  }

  /******* Plans per phase *******/

  predicate UsesHTTPExec(p: Pass) {
    p.template.Resolved? && p.template.useHTTPExec
  }

  // A claim takes effect only when the pod could be fetched and adopted.
  predicate AdoptsWarmPod(w: World, p: Pass) {
    && w.status.podName == ""
    && p.template.Resolved? && p.template.name != ""
    && p.inPoolNamespace
    && p.claim.Claimed? && p.claim.pod != ""
    && p.claim.pod in w.pods
    && ReadClaimedPod !in p.faults && AdoptClaimedPod !in p.faults
  }

  // The pod step of the cold path, once claim and isolation are in place.
  function PlanPod(sandbox: string, w: World, p: Pass): Plan {
    var pod := PodNameOf(sandbox);
    var n := w.status.restartCount;
    if ReadPod in p.faults then Quiet(Failed)
    else if pod !in w.pods then
      if CreatePod in p.faults then Plan(Fail("Pod creation failed", WorkspaceOf(sandbox), n), Done)
      else Plan(Build, RequeueAfter(SECOND), built := true)
    else if PodReady(w.pods[pod]) then Plan(StartCold, RequeueAfter(DEFAULT_REQUEUE_DELAY))
    else if w.pods[pod].phase.PodFailed? then
      Plan(Fail("Pod failed: " + FailureReason(w.pods[pod]), WorkspaceOf(sandbox), n), Done)
    else Quiet(RequeueAfter(SECOND))
  }

  function PlanStorage(sandbox: string, w: World, p: Pass): Plan {
    var n := w.status.restartCount;
    if EnsurePvc in p.faults then Plan(Fail("PVC creation failed", w.status.pvcName, n), Done)
    else if EnsureNetpol in p.faults then
      Plan(Fail("NetworkPolicy creation failed", WorkspaceOf(sandbox), n), Done, claimed := true)
    else PlanPod(sandbox, w, p).(claimed := true, isolated := true)
  }

  function PlanCold(sandbox: string, w: World, p: Pass): Plan {
    var own := w.status.pvcName;
    var n := w.status.restartCount;
    if UsesHTTPExec(p) && EnsureRuntimeToken in p.faults then Plan(Fail("Runtime-token secret failed", own, n), Done)
    else if UsesHTTPExec(p) && EnsureScopedKey in p.faults then Plan(Fail("Scoped API key secret failed", own, n), Done)
    else PlanStorage(sandbox, w, p)
  }

  function PlanWarm(w: World, pod: string, pvc: string, p: Pass): Plan {
    if EnsureNetpol in p.faults then
      Plan(Fail("NetworkPolicy creation failed for warm-pool sandbox", w.status.pvcName, w.status.restartCount), Done)
    else Plan(StartWarm(pod, pvc), RequeueAfter(DEFAULT_REQUEUE_DELAY), isolated := true)
  }

  function PlanCreating(sandbox: string, w: World, p: Pass): Plan {
    if p.template.ResolveFailed? then
      Plan(Fail("Template resolution failed", w.status.pvcName, w.status.restartCount), Done)
    else if AdoptsWarmPod(w, p) then PlanWarm(w, p.claim.pod, p.claim.pvc, p)
    else PlanCold(sandbox, w, p)
  }

  // The pod goes, the claim stays.
  function PlanStop(w: World, reason: string, p: Pass): Plan {
    if w.status.podName != "" && DeletePod in p.faults then Quiet(Failed)
    else Plan(Halt(reason), Done, gone := w.status.podName != "")
  }

  function PlanFailure(w: World, reason: string, pod: Option<Pod>): Plan {
    var n := w.status.restartCount;
    var own := w.status.pvcName;
    if !IsInfrastructureFailure(pod) then Plan(Fail("Pod failed: " + reason, own, n), Done)
    else if n + 1 >= MAX_RESTART_COUNT then Plan(Fail("Restart limit exceeded: " + reason, own, n + 1), Done)
    else Plan(Retry(reason), Requeue)
  }

  // A limit that is absent or not positive never expires.
  predicate Expired(since: Option<Time>, limit: Option<Time>, now: Time) {
    limit.Some? && limit.value > 0 && since.Some? && now - since.value >= limit.value
  }

  function TightenDelay(since: Option<Time>, limit: Option<Time>, now: Time, delay: Time): Time {
    if limit.Some? && limit.value > 0 && since.Some? then
      var remaining := limit.value - (now - since.value);
      if 0 < remaining < delay then remaining + SECOND else delay
    else delay
  }

  // How long a running pass that changed nothing sleeps.
  function RunningDelay(st: Status, p: Pass, now: Time): Time {
    TightenDelay(st.startedAt, p.timeout, now,
                 TightenDelay(st.lastActivity, p.idleTimeout, now, DEFAULT_REQUEUE_DELAY))
  }

  function PlanTimeouts(w: World, p: Pass): Plan {
    var st := w.status;
    if Expired(st.lastActivity, p.idleTimeout, w.clock) then PlanStop(w, "Idle timeout exceeded", p)
    else if Expired(st.startedAt, p.timeout, w.clock) then PlanStop(w, "Max runtime exceeded", p)
    else Quiet(RequeueAfter(RunningDelay(st, p, w.clock)))
  }

  predicate ResetDue(w: World, pod: Pod) {
    && w.status.restartCount > 0 && w.status.startedAt.Some?
    && w.clock - w.status.startedAt.value >= RESTART_COUNT_RESET_WINDOW
    && PodReady(pod)
  }

  function PlanRunning(w: World, p: Pass): Plan {
    var st := w.status;
    if st.podName == "" then
      Plan(Fail("Pod name not set in Running state", st.pvcName, st.restartCount), Done)
    else if w.stopRequested then
      if ClearAnnotation in p.faults then Quiet(Failed)
      else PlanStop(w, "User requested stop", p).(cleared := true)
    else if ReadPod in p.faults then Quiet(Failed)
    else if st.podName !in w.pods then PlanFailure(w, "Pod disappeared unexpectedly", None)
    else
      var pod := w.pods[st.podName];
      if pod.phase.PodFailed? then PlanFailure(w, FailureReason(pod), Some(pod))
      else if pod.phase.PodSucceeded? then PlanStop(w, "Sandbox process completed (pod exited 0)", p)
      else if ResetDue(w, pod) then Plan(Reset, Requeue)
      else PlanTimeouts(w, p)
  }

  function PlanError(w: World): Plan {
    var st := w.status;
    if st.restartCount >= MAX_RESTART_COUNT then Quiet(Done)
    else if !st.message.RetryPending? then Quiet(RequeueAfter(DEFAULT_REQUEUE_DELAY))
    else
      var backoff := BackoffDelay(st.restartCount);
      var notBefore := if st.startedAt.Some? then st.startedAt.value + backoff else w.clock;
      if w.clock < notBefore then Quiet(RequeueAfter(notBefore - w.clock))
      else Plan(Restart(notBefore), Requeue)
  }

  function PlanPhase(sandbox: string, w: World, p: Pass): Plan {
    match w.status.phase
    case Fresh => Quiet(Done)
    case Creating => PlanCreating(sandbox, w, p)
    case Running => PlanRunning(w, p)
    case Stopped => Quiet(Done)
    case Error => PlanError(w)
    case Deleting => Quiet(Done)
  }

  // A fresh sandbox is first recorded as Creating.
  function Awake(w: World): World {
    if w.status.phase.Fresh? then w.(status := w.status.(phase := Creating)) else w
  }

  // Deletion stops at the first failing call; what was issued stays issued.
  function AfterDelete(w: World, p: Pass): Outcome {
    var hasPod, hasPvc := w.status.podName != "", w.status.pvcName != "";
    var pod := w.finalizer && !(hasPod && DeletePod in p.faults);
    var pvc := pod && !(hasPvc && DeletePvc in p.faults);
    var net := pvc && DeleteNetpol !in p.faults;
    var key := net && RevokeKey !in p.faults;
    var all := key && WriteFinalizer !in p.faults;
    var w' := w.(
      pods := if pod && hasPod then w.pods - {w.status.podName} else w.pods,
      pvcs := if pvc && hasPvc then w.pvcs - {w.status.pvcName} else w.pvcs,
      netpol := w.netpol && !net,
      finalizer := w.finalizer && !all,
      present := w.present && !all,
      log := Note(Note(Note(Note(Note(w.log,
                  pod && hasPod, PodDeleted(w.clock, w.status.podName)),
                  pvc && hasPvc, PvcDeleted(w.clock, w.status.pvcName)),
                  net, NetpolDeleted(w.clock)), key, KeyRevoked(w.clock)), all, FinalizerRemoved(w.clock)));
    Outcome(w', if all || !w.finalizer then Done else Failed)
  }

  function Dispatch(sandbox: string, w: World, p: Pass): Outcome {
    if !w.present then Outcome(w, Done)
    else if w.deleting then AfterDelete(w, p)
    else if !w.finalizer then
      if WriteFinalizer in p.faults then Outcome(w, Failed) else Outcome(w.(finalizer := true), Requeue)
    else if w.status.phase.Fresh? && WriteCreating in p.faults then Outcome(w, Failed)
    else Commit(sandbox, Awake(w), PlanPhase(sandbox, Awake(w), p), p)
  }

  /******* Everything else that can happen *******/

  // The exported StopSandbox and ResumeSandbox of the reconciler.
  function DirectStop(sandbox: string, w: World, reason: string, p: Pass): Outcome {
    if !w.status.phase.Running? then Outcome(w, Failed)
    else Commit(sandbox, w, PlanStop(w, reason, p), p)
  }

  function DirectResume(w: World, p: Pass): Outcome {
    var st := w.status;
    if !st.phase.Stopped? && !st.phase.Error? then Outcome(w, Failed)
    else if st.pvcName != "" && (ReadPvc in p.faults || st.pvcName !in w.pvcs) then Outcome(w, Failed)
    else if WriteStatus in p.faults then Outcome(w, Failed)
    else Outcome(w.(status := st.(phase := Creating, message := Resuming, startedAt := Some(w.clock))), Done)
  }

  datatype Step =
    | Reconcile(pass: Pass)
    | Tick(elapsed: nat)
    | PodsChange(pods: map<string, Pod>)  // pods become ready, fail, complete, appear or disappear
    | UserStop
    | UserResume
    | UserDelete
    | CallStopSandbox(reason: string, pass: Pass)
    | CallResumeSandbox(pass: Pass)

  function Next(sandbox: string, w: World, s: Step): World {
    match s
    case Reconcile(p) => Dispatch(sandbox, w, p).world
    case Tick(d) => w.(clock := w.clock + d)
    case PodsChange(pods) => w.(pods := pods)
    case UserStop => if w.present && w.status.phase.Running? then w.(stopRequested := true) else w
    case UserResume =>
      if w.present && (w.status.phase.Stopped? || w.status.phase.Error?)
      then w.(status := w.status.(phase := Creating, message := Resuming)) else w
    case UserDelete => w.(deleting := true, present := w.present && w.finalizer)
    case CallStopSandbox(reason, p) => if w.present then DirectStop(sandbox, w, reason, p).world else w
    case CallResumeSandbox(p) => if w.present then DirectResume(w, p).world else w
  }

  // The world after a finite run.
  function Run(sandbox: string, w: World, steps: seq<Step>): World {
    if steps == [] then w
    else Next(sandbox, Run(sandbox, w, steps[..|steps| - 1]), steps[|steps| - 1])
  }
}
