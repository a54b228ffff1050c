/** How many automatic restarts a run can contain. */
module RestartBudget {
  import opened Wrappers
  import opened Lifecycle
  import opened LifecycleRuns

  const RESTARTS_PER_RESET: nat := MAX_RESTART_COUNT - 1

  function Front(log: seq<Event>): seq<Event>
    requires log != []
  {
    log[..|log| - 1]
  }

  function Last(log: seq<Event>): Event
    requires log != []
  {
    log[|log| - 1]
  }

  // Automatic restarts after the latest counter reset.
  function SinceReset(log: seq<Event>): nat {
    if log == [] || Last(log).CounterReset? then 0
    else SinceReset(Front(log)) + if Last(log).AutoRestart? then 1 else 0
  }

  function LastReset(log: seq<Event>): Option<Time> {
    if log == [] then None
    else if Last(log).CounterReset? then Some(Last(log).at)
    else LastReset(Front(log))
  }

  // At most four restarts between resets, resets at least five minutes apart, no restart before
  // its backoff is over, and events in time order.
  ghost predicate Budgeted(log: seq<Event>) {
    log == [] ||
    (&& Budgeted(Front(log))
     && (Front(log) != [] ==> Last(Front(log)).at <= Last(log).at)
     && SinceReset(log) <= RESTARTS_PER_RESET
     && (Last(log).AutoRestart? ==> Last(log).notBefore <= Last(log).at)
     && (Last(log).CounterReset? && LastReset(Front(log)).Some? ==>
           Last(log).at >= LastReset(Front(log)).value + RESTART_COUNT_RESET_WINDOW))
  }

  /******* What the log holds, and what the status must say about it *******/

  ghost predicate Tally(log: seq<Event>, since: nat, reset: Option<Time>, now: Time) {
    && Budgeted(log) && SinceReset(log) == since && LastReset(log) == reset
    && (log != [] ==> Last(log).at <= now)
  }

  // Restarts since the reset, plus the one that is pending, are covered by the restart count; a
  // count that can be reset again was raised after the latest reset.
  ghost predicate Covered(st: Status, now: Time, since: nat, reset: Option<Time>) {
    && since + (if st.message.RetryPending? then 1 else 0) <= st.restartCount
    && (st.phase.Running? && st.restartCount > 0 && reset.Some? ==>
          st.startedAt.Some? && reset.value <= st.startedAt.value)
    && (reset.Some? ==> reset.value <= now)
  }

  ghost predicate BudgetInv(w: World) {
    && Tally(w.log, SinceReset(w.log), LastReset(w.log), w.clock)
    && Covered(w.status, w.clock, SinceReset(w.log), LastReset(w.log))
  }

  lemma TallyAppend(log: seq<Event>, e: Event, since: nat, reset: Option<Time>, now: Time)
    requires Tally(log, since, reset, now) && e.at == now
    ensures Front(log + [e]) == log && Last(log + [e]) == e
    ensures !e.AutoRestart? && !e.CounterReset? ==> Tally(log + [e], since, reset, now)
    ensures e.AutoRestart? && e.notBefore <= now && since < RESTARTS_PER_RESET ==>
              Tally(log + [e], since + 1, reset, now)
    ensures e.CounterReset? && (reset.Some? ==> now >= reset.value + RESTART_COUNT_RESET_WINDOW) ==>
              Tally(log + [e], 0, Some(now), now)
  {
    assert Front(log + [e]) == log;
    SinceResetBounded(log);
  }

  lemma TallyNote(log: seq<Event>, condition: bool, e: Event, since: nat, reset: Option<Time>, now: Time)
    requires Tally(log, since, reset, now) && e.at == now && !e.AutoRestart? && !e.CounterReset?
    ensures Tally(Note(log, condition, e), since, reset, now)
  {
    TallyAppend(log, e, since, reset, now);
  }

  lemma SinceResetBounded(log: seq<Event>)
    requires Budgeted(log)
    ensures SinceReset(log) <= RESTARTS_PER_RESET
  {
  }

  function SinceAfter(m: Move, since: nat): nat {
    if m.Restart? then since + 1 else if m.Reset? then 0 else since
  }

  function ResetAfter(m: Move, now: Time, reset: Option<Time>): Option<Time> {
    if m.Reset? then Some(now) else reset
  }

  // The status a move writes covers the log that move announces.
  lemma MoveStaysCovered(sandbox: string, w: World, plan: Plan, p: Pass, since: nat, reset: Option<Time>)
    requires Inv(w) && Enabled(sandbox, w, p, plan) && Covered(w.status, w.clock, since, reset)
    ensures Covered(StatusAfter(sandbox, w.status, w.clock, plan.move), w.clock,
                    SinceAfter(plan.move, since), ResetAfter(plan.move, w.clock, reset))
    ensures plan.move.Restart? ==> since < RESTARTS_PER_RESET
    ensures plan.move.Reset? && reset.Some? ==> w.clock >= reset.value + RESTART_COUNT_RESET_WINDOW
  {
  }

  lemma AnnounceTallies(log: seq<Event>, m: Move, since: nat, reset: Option<Time>, now: Time)
    requires Tally(log, since, reset, now)
    requires m.Restart? ==> since < RESTARTS_PER_RESET && m.notBefore <= now
    requires m.Reset? && reset.Some? ==> now >= reset.value + RESTART_COUNT_RESET_WINDOW
    ensures Tally(Announce(log, now, m), SinceAfter(m, since), ResetAfter(m, now, reset), now)
  {
    match m
    case Restart(notBefore) => TallyAppend(log, AutoRestart(now, notBefore), since, reset, now);
    case Reset => TallyAppend(log, CounterReset(now), since, reset, now);
    case _ =>
  }

  lemma BudgetCommitted(sandbox: string, w: World, plan: Plan, p: Pass, w': World)
    requires BudgetInv(w) && Inv(w) && Enabled(sandbox, w, p, plan) && Committed(sandbox, w, plan, p, w')
    ensures BudgetInv(w')
  {
    var since, reset, now := SinceReset(w.log), LastReset(w.log), w.clock;
    var built, gone := PodBuilt(now, PodNameOf(sandbox), WorkspaceOf(sandbox)), PodDeleted(now, w.status.podName);
    TallyNote(w.log, plan.built, built, since, reset, now);
    TallyNote(Note(w.log, plan.built, built), plan.gone, gone, since, reset, now);
    var touched := Note(Note(w.log, plan.built, built), plan.gone, gone);
    MoveStaysCovered(sandbox, w, plan, p, since, reset);
    AnnounceTallies(touched, plan.move, since, reset, now);
  }

  lemma {:induction false} TallyGrows(log: seq<Event>, n: nat, since: nat, reset: Option<Time>, now: Time)
    requires n <= |log| && Tally(log[..n], since, reset, now)
    requires forall k | n <= k < |log| :: !log[k].AutoRestart? && !log[k].CounterReset? && log[k].at == now
    ensures Tally(log, since, reset, now)
    decreases |log| - n
  {
    if n < |log| {
      TallyAppend(log[..n], log[n], since, reset, now);
      assert log[..n + 1] == log[..n] + [log[n]];
      TallyGrows(log, n + 1, since, reset, now);
    } else {
      assert log[..n] == log;
    }
  }

  lemma AwakeKeepsBudget(w: World)
    requires BudgetInv(w) && Inv(w)
    ensures BudgetInv(Awake(w)) && Inv(Awake(w)) && Awake(w).log == w.log && Awake(w).clock == w.clock
  {
  }

  // Time that passes and statuses users write leave the tally covered.
  lemma BudgetOutside(w: World, s: Step, w': World)
    requires BudgetInv(w) && Inv(w) && Outside(w, s, w')
    requires Tally(w'.log, SinceReset(w.log), LastReset(w.log), w.clock)
    ensures BudgetInv(w')
  {
    assert Tally(w'.log, SinceReset(w.log), LastReset(w.log), w'.clock);
  }

  lemma DeletionTallies(w: World, p: Pass)
    requires BudgetInv(w)
    ensures Tally(AfterDelete(w, p).world.log, SinceReset(w.log), LastReset(w.log), w.clock)
  {
    DeletionAppends(w, p);
    var log := AfterDelete(w, p).world.log;
    TallyGrows(log, |w.log|, SinceReset(w.log), LastReset(w.log), w.clock);
  }

  lemma BudgetStep(sandbox: string, w: World, s: Step)
    requires BudgetInv(w) && Inv(w)
    ensures BudgetInv(Next(sandbox, w, s))
  {
    var plan := StepCases(sandbox, w, s);
    var w' := Next(sandbox, w, s);
    if Plans(w, s) {
      AwakeKeepsBudget(w);
      BudgetCommitted(sandbox, Awake(w), plan, s.pass, w');
    } else {
      if w'.log != w.log {
        DeletionTallies(w, s.pass);
      }
      BudgetOutside(w, s, w');
    }
  }

  lemma {:induction false} BudgetHolds(
      sandbox: string, clock: Time, pods: map<string, Pod>, pvcs: set<string>, steps: seq<Step>)
    requires sandbox != ""
    ensures BudgetInv(Run(sandbox, Initial(clock, pods, pvcs), steps))
  {
    if steps != [] {
      var before := steps[..|steps| - 1];
      BudgetHolds(sandbox, clock, pods, pvcs, before);
      ReachableInvariant(sandbox, clock, pods, pvcs, before);
      BudgetStep(sandbox, Run(sandbox, Initial(clock, pods, pvcs), before), steps[|steps| - 1]);
    }
  }

  /******* Counting in a window *******/

  predicate InWindow(e: Event, from: Time, length: nat) {
    from <= e.at <= from + length
  }

  function RestartsWithin(log: seq<Event>, from: Time, length: nat): nat {
    if log == [] then 0
    else RestartsWithin(Front(log), from, length)
         + if Last(log).AutoRestart? && InWindow(Last(log), from, length) then 1 else 0
  }

  function ResetsWithin(log: seq<Event>, from: Time, length: nat): nat {
    if log == [] then 0
    else ResetsWithin(Front(log), from, length)
         + if Last(log).CounterReset? && InWindow(Last(log), from, length) then 1 else 0
  }

  // Resets cut a window into segments of at most four restarts each.
  lemma {:induction false} RestartsPerSegment(log: seq<Event>, from: Time, length: nat)
    requires Budgeted(log)
    ensures var restarts, resets := RestartsWithin(log, from, length), ResetsWithin(log, from, length);
            && restarts <= RESTARTS_PER_RESET * (resets + 1)
            && (log != [] && Last(log).at <= from + length ==>
                  restarts <= RESTARTS_PER_RESET * resets + SinceReset(log))
            && (log != [] && Last(log).at < from ==> restarts == resets == 0)
  {
    if log != [] {
      RestartsPerSegment(Front(log), from, length);
      SinceResetBounded(Front(log));
    }
  }

  // Resets five minutes apart: the latest one lies past all the others of the window.
  lemma {:induction false} ResetsAreSpaced(log: seq<Event>, from: Time, length: nat)
    requires Budgeted(log)
    ensures var resets := ResetsWithin(log, from, length);
            && (resets > 0 ==>
                  && LastReset(log).Some?
                  && LastReset(log).value >= from + (resets - 1) * RESTART_COUNT_RESET_WINDOW)
            && resets <= length / RESTART_COUNT_RESET_WINDOW + 1
  {
    if log != [] {
      ResetsAreSpaced(Front(log), from, length);
      RestartsPerSegment(log, from, length);
      var n := ResetsWithin(Front(log), from, length);
      var e := Last(log);
      if e.CounterReset? && InWindow(e, from, length) {
        assert e.at >= from + n * RESTART_COUNT_RESET_WINDOW;
        assert n * RESTART_COUNT_RESET_WINDOW <= length;
      } else if e.CounterReset? && n > 0 {
        assert e.at > from + length;
        assert (n - 1) * RESTART_COUNT_RESET_WINDOW <= length;
      }
    }
  }

  // Whatever pods, users and failing calls do, a window of any length holds a bounded number of
  // automatic restarts, and none came before its backoff was over.
  lemma RestartBudgetTheorem(
      sandbox: string, clock: Time, pods: map<string, Pod>, pvcs: set<string>, steps: seq<Step>,
      from: Time, length: nat)
    requires sandbox != ""
    ensures var log := Run(sandbox, Initial(clock, pods, pvcs), steps).log;
            && Budgeted(log)
            && RestartsWithin(log, from, length)
               <= RESTARTS_PER_RESET * (length / RESTART_COUNT_RESET_WINDOW + 2)
  {
    BudgetHolds(sandbox, clock, pods, pvcs, steps);
    var log := Run(sandbox, Initial(clock, pods, pvcs), steps).log;
    RestartsPerSegment(log, from, length);
    ResetsAreSpaced(log, from, length);
  }
}
