/** The reconciler's methods, step by step over the API server's stored objects.

    Each method works on an in-memory copy of the status and persists it only through
    `UpdateStatus`, as the controller does. Each is proved to have exactly the outcome the
    functions of `Lifecycle` give.
 */
module SandboxReconciler {
  import opened Wrappers
  import opened Api
  import opened Lifecycle

  // Objects touched before a plan is committed count as touched by it.
  lemma StorageBefore(sandbox: string, w: World, plan: Plan, p: Pass)
    ensures Commit(sandbox, w.(pvcs := w.pvcs + {WorkspaceOf(sandbox)}, netpol := true), plan, p)
         == Commit(sandbox, w, plan.(claimed := true, isolated := true), p)
  {
    assert w.pvcs + {WorkspaceOf(sandbox)} + {WorkspaceOf(sandbox)} == w.pvcs + {WorkspaceOf(sandbox)};
  }

  lemma ClearedBefore(sandbox: string, w: World, plan: Plan, p: Pass)
    ensures Commit(sandbox, w.(stopRequested := false), plan, p) == Commit(sandbox, w, plan.(cleared := true), p)
  {
  }

  class Reconciler {
    const sandbox: string
    var clock: Time
    var present: bool
    var deleting: bool
    var finalizer: bool
    var stopRequested: bool
    var status: Status
    var pods: map<string, Pod>
    var pvcs: set<string>
    var netpol: bool
    var log: seq<Event>

    constructor (sandbox: string, clock: Time, pods: map<string, Pod>, pvcs: set<string>)
      ensures this.sandbox == sandbox && Stored() == Initial(clock, pods, pvcs)
    {
      this.sandbox := sandbox;
      this.clock := clock;
      present, deleting, finalizer, stopRequested, netpol := true, false, false, false, false;
      status := FRESH_STATUS;
      this.pods, this.pvcs := pods, pvcs;
      log := [];
    }

    ghost function Stored(): World
      reads this
    {
      World(clock, present, deleting, finalizer, stopRequested, status, pods, pvcs, netpol, log)
    }

    method UpdateStatus(st: Status, p: Pass) returns (ok: bool)
      modifies this`status
      ensures ok == (WriteStatus !in p.faults)
      ensures status == if ok then st else old(status)
    {
      ok := WriteStatus !in p.faults;
      if ok {
        status := st;
      }
    }

    method TransitionToError(st: Status, text: string, p: Pass) returns (r: ReconcileResult)
      modifies this`status
      ensures status == if WriteStatus in p.faults then old(status) else st.(phase := Error, message := Reason(text))
      ensures r == if WriteStatus in p.faults then Failed else Done
    {
      var ok := UpdateStatus(st.(phase := Error, message := Reason(text)), p);
      return if ok then Done else Failed;
    }

    method StopSandbox(reason: string, p: Pass) returns (r: ReconcileResult)
      modifies this
      ensures Outcome(Stored(), r) == Commit(sandbox, old(Stored()), PlanStop(old(Stored()), reason, p), p)
    {
      var st := status;
      if st.podName != "" {
        if DeletePod in p.faults {
          return Failed;
        }
        pods := pods - {st.podName};
        log := log + [PodDeleted(clock, st.podName)];
      }
      st := st.(phase := Stopped, podName := "", startedAt := None, message := Reason(reason));
      var ok := UpdateStatus(st, p);
      return if ok then Done else Failed;
    }

    method HandleInfrastructureFailure(reason: string, pod: Option<Pod>, p: Pass) returns (r: ReconcileResult)
      modifies this`status
      ensures Outcome(Stored(), r) == Commit(sandbox, old(Stored()), PlanFailure(old(Stored()), reason, pod), p)
    {
      var st := status;
      if !IsInfrastructureFailure(pod) {
        r := TransitionToError(st, "Pod failed: " + reason, p);
        return;
      }
      st := st.(restartCount := st.restartCount + 1);
      if st.restartCount >= MAX_RESTART_COUNT {
        r := TransitionToError(st, "Restart limit exceeded: " + reason, p);
        return;
      }
      st := st.(phase := Error, podName := "");
      st := st.(message := RetryPending(reason, BackoffDelay(st.restartCount), st.restartCount));
      var ok := UpdateStatus(st, p);
      return if ok then Requeue else Failed;
    }

    method ReconcileCreating(p: Pass) returns (r: ReconcileResult)
      requires status.phase.Fresh? || status.phase.Creating?
      modifies this
      ensures Outcome(Stored(), r) ==
              (var w := old(Stored());
               if w.status.phase.Fresh? && WriteCreating in p.faults then Outcome(w, Failed)
               else Commit(sandbox, Awake(w), PlanCreating(sandbox, Awake(w), p), p))
    {
      if status.phase.Fresh? {
        if WriteCreating in p.faults {
          return Failed;
        }
        status := status.(phase := Creating);
      }
      r := Create(p);
    }

    // Template, then a warm pod if one can be adopted, then a cold start.
    method Create(p: Pass) returns (r: ReconcileResult)
      requires status.phase.Creating?
      modifies this
      ensures Outcome(Stored(), r) == Commit(sandbox, old(Stored()), PlanCreating(sandbox, old(Stored()), p), p)
    {
      var st := status;
      if p.template.ResolveFailed? {
        r := TransitionToError(st, "Template resolution failed", p);
        return;
      }
      var templateName := if p.template.Resolved? then p.template.name else "";
      var useHTTPExec := p.template.Resolved? && p.template.useHTTPExec;

      var canClaim := st.podName == "" && templateName != "" && p.inPoolNamespace;
      if canClaim && p.claim.Claimed? && p.claim.pod != "" {
        if ReadClaimedPod !in p.faults && p.claim.pod in pods && AdoptClaimedPod !in p.faults {
          r := StartWarmPod(st, p.claim.pod, p.claim.pvc, p);
          return;
        }
      }
      r := CreateCold(st, useHTTPExec, p);
    }

    // Isolation comes before the status that says Running.
    method StartWarmPod(st0: Status, pod: string, pvc: string, p: Pass) returns (r: ReconcileResult)
      requires st0 == status
      modifies this
      ensures Outcome(Stored(), r) ==
              Commit(sandbox, old(Stored()), PlanWarm(old(Stored()), pod, pvc, p), p)
    {
      var st := st0;
      if EnsureNetpol in p.faults {
        r := TransitionToError(st, "NetworkPolicy creation failed for warm-pool sandbox", p);
        return;
      }
      netpol := true;
      st := st.(phase := Running, podName := pod, pvcName := pvc);
      st := st.(startedAt := Some(clock), lastActivity := Some(clock), message := NoMessage);
      var ok := UpdateStatus(st, p);
      return if ok then RequeueAfter(DEFAULT_REQUEUE_DELAY) else Failed;
    }

    // The two secrets, then storage, isolation and the pod.
    method CreateCold(st0: Status, useHTTPExec: bool, p: Pass) returns (r: ReconcileResult)
      requires st0 == status && st0.phase.Creating? && useHTTPExec == UsesHTTPExec(p)
      modifies this
      ensures Outcome(Stored(), r) == Commit(sandbox, old(Stored()), PlanCold(sandbox, old(Stored()), p), p)
    {
      var st := st0;
      if useHTTPExec {
        if EnsureRuntimeToken in p.faults {
          r := TransitionToError(st, "Runtime-token secret failed", p);
          return;
        }
        if EnsureScopedKey in p.faults {
          r := TransitionToError(st, "Scoped API key secret failed", p);
          return;
        }
      }
      r := EnsureStorage(st, p);
    }

    method EnsureStorage(st0: Status, p: Pass) returns (r: ReconcileResult)
      requires st0 == status && st0.phase.Creating?
      modifies this
      ensures Outcome(Stored(), r) == Commit(sandbox, old(Stored()), PlanStorage(sandbox, old(Stored()), p), p)
    {
      var st := st0;
      if EnsurePvc in p.faults {
        r := TransitionToError(st, "PVC creation failed", p);
        return;
      }
      if WorkspaceOf(sandbox) !in pvcs {
        pvcs := pvcs + {WorkspaceOf(sandbox)};
      }
      assert pvcs == old(pvcs) + {WorkspaceOf(sandbox)};
      st := st.(pvcName := WorkspaceOf(sandbox));

      if EnsureNetpol in p.faults {
        r := TransitionToError(st, "NetworkPolicy creation failed", p);
        return;
      }
      netpol := true;
      StorageBefore(sandbox, old(Stored()), PlanPod(sandbox, old(Stored()), p), p);
      assert PlanPod(sandbox, Stored(), p) == PlanPod(sandbox, old(Stored()), p);
      r := EnsurePod(st, p);
    }

    // `st` is the in-memory status, which already names the claim.
    method EnsurePod(st0: Status, p: Pass) returns (r: ReconcileResult)
      requires status.phase.Creating? && st0 == status.(pvcName := WorkspaceOf(sandbox))
      modifies this
      ensures Outcome(Stored(), r) == Commit(sandbox, old(Stored()), PlanPod(sandbox, old(Stored()), p), p)
    {
      var st := st0;
      var podName := PodNameOf(sandbox);
      if ReadPod in p.faults {
        return Failed;
      }
      if podName !in pods {
        if CreatePod in p.faults {
          r := TransitionToError(st, "Pod creation failed", p);
          return;
        }
        pods := pods[podName := Pod(PodPending, false, [], "", st.pvcName)];
        log := log + [PodBuilt(clock, podName, st.pvcName)];
        var ok := UpdateStatus(st.(podName := podName), p);
        return if ok then RequeueAfter(SECOND) else Failed;
      }
      var pod := pods[podName];
      if PodReady(pod) {
        st := st.(phase := Running, podName := podName);
        st := st.(startedAt := Some(clock), lastActivity := Some(clock), message := NoMessage);
        var ok := UpdateStatus(st, p);
        return if ok then RequeueAfter(DEFAULT_REQUEUE_DELAY) else Failed;
      }
      if pod.phase.PodFailed? {
        r := TransitionToError(st, "Pod failed: " + FailureReason(pod), p);
        return;
      }
      return RequeueAfter(SECOND);
    }

    method ReconcileRunning(p: Pass) returns (r: ReconcileResult)
      requires status.phase.Running?
      modifies this
      ensures Outcome(Stored(), r) == Commit(sandbox, old(Stored()), PlanRunning(old(Stored()), p), p)
    {
      if status.podName == "" {
        r := TransitionToError(status, "Pod name not set in Running state", p);
        return;
      }
      if stopRequested {
        if ClearAnnotation in p.faults {
          return Failed;
        }
        stopRequested := false;
        ClearedBefore(sandbox, old(Stored()), PlanStop(old(Stored()), "User requested stop", p), p);
        r := StopSandbox("User requested stop", p);
        return;
      }
      if ReadPod in p.faults {
        return Failed;
      }
      if status.podName !in pods {
        r := HandleInfrastructureFailure("Pod disappeared unexpectedly", None, p);
        return;
      }
      var pod := pods[status.podName];
      if pod.phase.PodFailed? {
        r := HandleInfrastructureFailure(FailureReason(pod), Some(pod), p);
        return;
      }
      if pod.phase.PodSucceeded? {
        r := StopSandbox("Sandbox process completed (pod exited 0)", p);
        return;
      }
      if status.restartCount > 0 && status.startedAt.Some? {
        var uptime := clock - status.startedAt.value;
        if uptime >= RESTART_COUNT_RESET_WINDOW && PodReady(pod) {
          var ok := UpdateStatus(status.(restartCount := 0), p);
          if !ok {
            return Failed;
          }
          log := log + [CounterReset(clock)];
          return Requeue;
        }
      }
      r := CheckTimeouts(p);
    }

    method CheckTimeouts(p: Pass) returns (r: ReconcileResult)
      modifies this
      ensures Outcome(Stored(), r) == Commit(sandbox, old(Stored()), PlanTimeouts(old(Stored()), p), p)
    {
      if p.idleTimeout.Some? && p.idleTimeout.value > 0 && status.lastActivity.Some? {
        var idle := clock - status.lastActivity.value;
        if idle >= p.idleTimeout.value {
          r := StopSandbox("Idle timeout exceeded", p);
          return;
        }
      }
      if p.timeout.Some? && p.timeout.value > 0 && status.startedAt.Some? {
        var runtime := clock - status.startedAt.value;
        if runtime >= p.timeout.value {
          r := StopSandbox("Max runtime exceeded", p);
          return;
        }
      }
      var requeueAfter := DEFAULT_REQUEUE_DELAY;
      if p.idleTimeout.Some? && p.idleTimeout.value > 0 && status.lastActivity.Some? {
        var remaining := p.idleTimeout.value - (clock - status.lastActivity.value);
        if remaining > 0 && remaining < requeueAfter {
          requeueAfter := remaining + SECOND;
        }
      }
      if p.timeout.Some? && p.timeout.value > 0 && status.startedAt.Some? {
        var remaining := p.timeout.value - (clock - status.startedAt.value);
        if remaining > 0 && remaining < requeueAfter {
          requeueAfter := remaining + SECOND;
        }
      }
      return RequeueAfter(requeueAfter);
    }

    method ReconcileError(p: Pass) returns (r: ReconcileResult)
      requires status.phase.Error?
      modifies this
      ensures Outcome(Stored(), r) == Commit(sandbox, old(Stored()), PlanError(old(Stored())), p)
    {
      if status.restartCount >= MAX_RESTART_COUNT {
        return Done;
      }
      if !status.message.RetryPending? {
        return RequeueAfter(DEFAULT_REQUEUE_DELAY);
      }
      var backoff := BackoffDelay(status.restartCount);
      if status.startedAt.Some? {
        var elapsed := clock - status.startedAt.value;
        if elapsed < backoff {
          return RequeueAfter(backoff - elapsed);
        }
      }
      var st := status.(phase := Creating, message := NoMessage);
      var since := status.startedAt;
      var ok := UpdateStatus(st, p);
      if !ok {
        return Failed;
      }
      log := log + [AutoRestart(clock, if since.Some? then since.value + backoff else clock)];
      return Requeue;
    }

    method ReconcileDelete(p: Pass) returns (r: ReconcileResult)
      modifies this
      ensures Outcome(Stored(), r) == AfterDelete(old(Stored()), p)
    {
      if !finalizer {
        return Done;
      }
      if status.podName != "" {
        if DeletePod in p.faults {
          return Failed;
        }
        pods := pods - {status.podName};
        log := log + [PodDeleted(clock, status.podName)];
      }
      if status.pvcName != "" {
        if DeletePvc in p.faults {
          return Failed;
        }
        pvcs := pvcs - {status.pvcName};
        log := log + [PvcDeleted(clock, status.pvcName)];
      }
      if DeleteNetpol in p.faults {
        return Failed;
      }
      netpol := false;
      log := log + [NetpolDeleted(clock)];
      if RevokeKey in p.faults {
        return Failed;
      }
      log := log + [KeyRevoked(clock)];
      if WriteFinalizer in p.faults {
        return Failed;
      }
      finalizer, present := false, false;
      log := log + [FinalizerRemoved(clock)];
      return Done;
    }

    method Reconcile(p: Pass) returns (r: ReconcileResult)
      modifies this
      ensures Outcome(Stored(), r) == Dispatch(sandbox, old(Stored()), p)
    {
      if !present {
        return Done;
      }
      if deleting {
        r := ReconcileDelete(p);
        return;
      }
      if !finalizer {
        if WriteFinalizer in p.faults {
          return Failed;
        }
        finalizer := true;
        return Requeue;
      }
      match status.phase {
        case Fresh => r := ReconcileCreating(p);
        case Creating => r := ReconcileCreating(p);
        case Running => r := ReconcileRunning(p);
        case Stopped => r := Done;
        case Error => r := ReconcileError(p);
        case Deleting => r := Done;
      }
    }

    // The exported lifecycle entry points, which check the phase themselves.
    method DirectStopSandbox(reason: string, p: Pass) returns (r: ReconcileResult)
      modifies this
      ensures Outcome(Stored(), r) == DirectStop(sandbox, old(Stored()), reason, p)
    {
      if !status.phase.Running? {
        return Failed;
      }
      r := StopSandbox(reason, p);
    }

    method ResumeSandbox(p: Pass) returns (r: ReconcileResult)
      modifies this
      ensures Outcome(Stored(), r) == DirectResume(old(Stored()), p)
    {
      if !status.phase.Stopped? && !status.phase.Error? {
        return Failed;
      }
      if status.pvcName != "" {
        if ReadPvc in p.faults || status.pvcName !in pvcs {
          return Failed;
        }
      }
      var st := status.(phase := Creating, message := Resuming, startedAt := Some(clock));
      var ok := UpdateStatus(st, p);
      return if ok then Done else Failed;
    }

    // The router's two user actions.
    method HandleStop()
      modifies this`stopRequested
      ensures Stored() == Next(sandbox, old(Stored()), UserStop)
    {
      if present && status.phase.Running? {
        stopRequested := true;
      }
    }

    method HandleResume()
      modifies this`status
      ensures Stored() == Next(sandbox, old(Stored()), UserResume)
    {
      if present && (status.phase.Stopped? || status.phase.Error?) {
        status := status.(phase := Creating, message := Resuming);
      }
    }
  }
}
