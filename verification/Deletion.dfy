/** The deletion pass with its key step spelled out: what is gone when the finalizer goes. */
module Deletion {
  import opened Lifecycle
  import opened LifecycleRuns
  import Keys = ScopedKeys

  // The key stores as a deletion pass finds them: reachable, and no attempt under way.
  ghost predicate AtDeletion(s: Keys.System) {
    Keys.Reachable(s) && s.deleting && s.finalizer && s.pass.Idle? && s.attempts == map[]
  }

  // The key stores after the calls of the pass's key step.
  function AfterRevoke(s: Keys.System, answers: Keys.PassAnswers): Keys.System {
    Keys.RunPass(s.(pass := Keys.FindPlaintext), answers, 3)
  }

  // The key step fails in the pass exactly if one of its calls does.
  predicate Revokes(p: Pass, s: Keys.System, answers: Keys.PassAnswers) {
    RevokeKey !in p.faults <==> AfterRevoke(s, answers).pass.RemoveFinalizer?
  }

  lemma {:induction false} RunPassKeepsInv(s: Keys.System, answers: Keys.PassAnswers, calls: nat)
    requires Keys.Inv(s) && Keys.Traced(s)
    ensures var t := Keys.RunPass(s, answers, calls);
            && Keys.Inv(t) && Keys.Traced(t)
            && t.plaintext == s.plaintext && t.leaked == s.leaked && t.attempts == s.attempts
    decreases calls
  {
    if calls > 0 {
      match s.pass
      case FindPlaintext => OneCallKeepsInv(s, answers.get, answers, calls);
      case FindRecord(_) => OneCallKeepsInv(s, answers.getRecord, answers, calls);
      case DeleteRecord(_) => OneCallKeepsInv(s, answers.deleteRecord, answers, calls);
      case _ =>
    }
  }

  lemma {:induction false} OneCallKeepsInv(s: Keys.System, o: Keys.Outcome, answers: Keys.PassAnswers, calls: nat)
    requires Keys.Inv(s) && Keys.Traced(s) && calls > 0 && !s.pass.RemoveFinalizer?
    ensures var t := Keys.RunPass(Keys.AdvancePass(s, o), answers, calls - 1);
            && Keys.Inv(t) && Keys.Traced(t)
            && t.plaintext == s.plaintext && t.leaked == s.leaked && t.attempts == s.attempts
    decreases calls, 0
  {
    Keys.PassKeepsInv(s, o);
    Keys.PassStaysTraced(s, o);
    RunPassKeepsInv(Keys.AdvancePass(s, o), answers, calls - 1);
  }

  lemma RevokedWhenDone(s: Keys.System, answers: Keys.PassAnswers)
    requires AtDeletion(s)
    ensures var t := AfterRevoke(s, answers);
            && t.plaintext == s.plaintext && t.leaked == s.leaked
            && (t.pass.RemoveFinalizer? ==> Keys.Revoked(t) && forall h :: h in t.records <==> h.key in t.leaked)
  {
    var states: seq<Keys.System>, steps: seq<Keys.Step> :| Keys.IsRun(states, steps) && states[|steps|] == s;
    Keys.RunInv(states, steps, |steps|);
    Keys.RunTraced(states, steps, |steps|);
    Keys.InvStep(s, Keys.StartPass);
    Keys.StepStaysTraced(s, Keys.StartPass);
    RunPassKeepsInv(s.(pass := Keys.FindPlaintext), answers, 3);
    if AfterRevoke(s, answers).pass.RemoveFinalizer? {
      Keys.RecordsWhenRevoked(AfterRevoke(s, answers));
    }
  }

  // The finalizer goes only when the recorded pod, claim and network policy are gone, the stored
  // key has no record any more, and no record is left but those of leaked keys.
  lemma FinalizerGoesAfterEverything(sandbox: string, w: World, p: Pass, s: Keys.System, answers: Keys.PassAnswers)
    requires AtDeletion(s) && Revokes(p, s, answers)
    requires w.finalizer && !Next(sandbox, w, Reconcile(p)).finalizer
    ensures var w', t := Next(sandbox, w, Reconcile(p)), AfterRevoke(s, answers);
            && (w.status.podName != "" ==> w.status.podName !in w'.pods)
            && (w.status.pvcName != "" ==> w.status.pvcName !in w'.pvcs)
            && !w'.netpol
            && (s.plaintext.Some? ==> Keys.HashOf(s.plaintext.value) !in t.records)
            && (forall h :: h in t.records <==> h.key in s.leaked)
            && w'.log == w.log + DeleteEvents(w)
  {
    FinalizerGoesLast(sandbox, w, Reconcile(p));
    RevokedBeforeFinalizer(w, p);
    RevokedWhenDone(s, answers);
  }

  lemma RevokedBeforeFinalizer(w: World, p: Pass)
    requires w.finalizer && !AfterDelete(w, p).world.finalizer
    ensures RevokeKey !in p.faults
  {
  }
}
