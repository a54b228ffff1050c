/** The governance policies kept in one ConfigMap, written by any number of router replicas. */
module PolicyStore {
  import opened Wrappers
  import opened Governance

  datatype Op = SetPolicy(scope: string, policy: Policy) | DeletePolicy(scope: string)

  function Apply(op: Op, policies: Policies): Policies {
    match op
    case SetPolicy(scope, policy) => policies[KeyOf(scope) := policy]
    case DeletePolicy(scope) => policies - {KeyOf(scope)}
  }

  function Fold(start: Policies, ops: seq<Op>): Policies {
    if ops == [] then start else Apply(ops[|ops| - 1], Fold(start, ops[..|ops| - 1]))
  }

  /******* The API server *******/

  datatype ConfigMap = ConfigMap(version: nat, policies: Policies)

  // Every write is given the next revision as its version.
  datatype Server = Server(stored: Option<ConfigMap>, revision: nat)

  function Write(server: Server, policies: Policies): Server {
    Server(Some(ConfigMap(server.revision + 1, policies)), server.revision + 1)
  }

  predicate UpdateAccepted(server: Server, version: nat) {
    server.stored.Some? && server.stored.value.version == version
  }

  function PoliciesOf(server: Server): Policies {
    if server.stored.Some? then server.stored.value.policies else map[]
  }

  function VersionOf(server: Server): Option<nat> {
    if server.stored.Some? then Some(server.stored.value.version) else None
  }

  /******* Requests in flight, one API call at a time *******/

  // Where a request stands: what it will write, already changed, and the version it read.
  datatype Request =
    | Idle
    | Loaded(op: Op, policies: Policies, version: Option<nat>)
    | Raced(op: Op, policies: Policies)
    | Reloaded(op: Op, policies: Policies, current: nat)

  datatype Event =
    | Load(client: nat, op: Op, fails: bool)
    | Call(client: nat, fails: bool)

  // done lists the operations that reported success, in the order they took effect.
  datatype System = System(server: Server, requests: map<nat, Request>, done: seq<Op>)

  function At(s: System, client: nat): Request {
    if client in s.requests then s.requests[client] else Idle
  }

  function Goes(s: System, client: nat, to: Request): System {
    s.(requests := s.requests[client := to])
  }

  function Commit(s: System, client: nat, op: Op, policies: Policies): System {
    Goes(s, client, Idle).(server := Write(s.server, policies), done := s.done + [op])
  }

  function Update(s: System, client: nat, op: Op, policies: Policies, version: nat): System {
    if UpdateAccepted(s.server, version) then Commit(s, client, op, policies) else Goes(s, client, Idle)
  }

  function Step(s: System, e: Event): System {
    match e
    case Load(client, op, fails) =>
      if !At(s, client).Idle? || fails then s
      else Goes(s, client, Loaded(op, Apply(op, PoliciesOf(s.server)), VersionOf(s.server)))
    case Call(client, fails) =>
      if At(s, client).Idle? then s
      else if fails then Goes(s, client, Idle)
      else match At(s, client)
        case Loaded(op, policies, Some(version)) => Update(s, client, op, policies, version)
        case Loaded(op, policies, None) =>
          if s.server.stored.None? then Commit(s, client, op, policies) else Goes(s, client, Raced(op, policies))
        case Raced(op, policies) =>
          if s.server.stored.None? then Goes(s, client, Idle)
          else Goes(s, client, Reloaded(op, policies, s.server.stored.value.version))
        case Reloaded(op, policies, current) => Update(s, client, op, policies, current)
  }

  function Run(s: System, events: seq<Event>): System
    decreases |events|
  {
    if events == [] then s else Step(Run(s, events[..|events| - 1]), events[|events| - 1])
  }

  // The changed map: the operation's own entry is the policy set, or gone, and no other differs.
  ghost predicate Changed(before: Policies, op: Op, after: Policies) {
    && (forall key | key in before && !Concerns(op, key) :: key in after && after[key] == before[key])
    && (forall key | key in after && !Concerns(op, key) :: key in before)
    && (forall key | Concerns(op, key) ::
          if op.SetPolicy? then key in after && after[key] == op.policy else key !in after)
  }

  // The cluster's policy is stored under a name no namespace has.
  predicate Concerns(op: Op, key: string) {
    key == if op.scope == "" then "__cluster__" else op.scope
  }

  // Nothing was written between the load and the save, as far as the store can tell.
  predicate Undisturbed(s: System, me: nat, op: Op, load: Turn, save: Turn) {
    var loading := Run(s, load.others);
    var saving := Run(Step(loading, Load(me, op, load.fails)), save.others);
    !load.fails && !save.fails && VersionOf(loading.server) == VersionOf(saving.server)
  }

  /******* The store's own code *******/

  // What happens before an API call of the request at hand, and whether that call then fails.
  datatype Turn = Turn(others: seq<Event>, fails: bool)

  predicate Others(events: seq<Event>, me: nat) {
    forall e :: e in events ==> e.client != me
  }

  class ConfigMapStore {
    var server: Server
    var requests: map<nat, Request>
    var done: seq<Op>

    ghost function Now(): System
      reads this
    {
      System(server, requests, done)
    }

    constructor (server: Server)
      ensures Now() == System(server, map[], [])
    {
      this.server, requests, done := server, map[], [];
    }

    // The other replicas go on meanwhile.
    method Wait(others: seq<Event>, me: nat)
      requires Others(others, me)
      modifies this
      ensures Now() == Run(old(Now()), others)
      ensures At(Now(), me) == old(At(Now(), me))
    {
      OthersLeaveMine(Now(), others, me);
      var next := Run(System(server, requests, done), others);
      server, requests, done := next.server, next.requests, next.done;
    }

    method LoadAndApply(me: nat, op: Op, turn: Turn) returns (r: Result<(Policies, Option<nat>), bool>)
      requires Others(turn.others, me) && At(Now(), me) == Idle
      modifies this
      ensures Now() == Step(Run(old(Now()), turn.others), Load(me, op, turn.fails))
      ensures r.Ok? <==> !turn.fails
      ensures r.Ok? ==> At(Now(), me) == Loaded(op, r.value.0, r.value.1)
      ensures r.Err? ==> At(Now(), me) == Idle
    {
      Wait(turn.others, me);
      if turn.fails {
        return Err(true);
      }
      var policies, version := PoliciesOf(server), VersionOf(server);
      var key := if op.scope == "" then CLUSTER_POLICY_KEY else op.scope;
      if op.SetPolicy? {
        policies := policies[key := op.policy];
      } else {
        policies := policies - {key};
      }
      requests := requests[me := Loaded(op, policies, version)];
      return Ok((policies, version));
    }

    method UpdateCall(me: nat, op: Op, policies: Policies, version: nat, turn: Turn) returns (ok: bool)
      requires Others(turn.others, me)
      requires At(Now(), me) == Loaded(op, policies, Some(version)) || At(Now(), me) == Reloaded(op, policies, version)
      modifies this
      ensures Now() == Step(Run(old(Now()), turn.others), Call(me, turn.fails))
      ensures done == if ok then Run(old(Now()), turn.others).done + [op] else Run(old(Now()), turn.others).done
      ensures At(Now(), me) == Idle
    {
      Wait(turn.others, me);
      requests := requests[me := Idle];
      ok := !turn.fails && UpdateAccepted(server, version);
      if ok {
        server, done := Write(server, policies), done + [op];
      }
    }

    // calls counts the API calls made, each in its turn; only a create that found another
    // writer's ConfigMap is followed by more.
    method Save(me: nat, op: Op, policies: Policies, version: Option<nat>, turns: seq<Turn>)
      returns (ok: bool, calls: nat)
      requires |turns| == 3 && forall t :: t in turns ==> Others(t.others, me)
      requires At(Now(), me) == Loaded(op, policies, version)
      modifies this
      ensures 1 <= calls <= 3 && Now() == After(old(Now()), me, turns, calls)
      ensures At(Now(), me) == Idle
      ensures ok <==> LastCommits(old(Now()), me, turns, calls, op)
      ensures calls == 1 || At(After(old(Now()), me, turns, 1), me).Raced?
    {
      ghost var was := Now();
      if version.Some? {
        ok := UpdateCall(me, op, policies, version.value, turns[0]);
        return ok, 1;
      }
      Wait(turns[0].others, me);
      if turns[0].fails {
        requests := requests[me := Idle];
        return false, 1;
      }
      if server.stored.None? {
        server, requests, done := Write(server, policies), requests[me := Idle], done + [op];
        return true, 1;
      }
      requests := requests[me := Raced(op, policies)];
      ok, calls := Overwrite(was, me, op, policies, turns);
    }

    // Fetch the version of the other writer's ConfigMap.
    method Refetch(me: nat, op: Op, policies: Policies, turn: Turn) returns (current: Option<nat>)
      requires Others(turn.others, me) && At(Now(), me) == Raced(op, policies)
      modifies this
      ensures Now() == Step(Run(old(Now()), turn.others), Call(me, turn.fails))
      ensures done == Run(old(Now()), turn.others).done
      ensures At(Now(), me) == if current.Some? then Reloaded(op, policies, current.value) else Idle
    {
      Wait(turn.others, me);
      if turn.fails || server.stored.None? {
        requests := requests[me := Idle];
        return None;
      }
      current := Some(server.stored.value.version);
      requests := requests[me := Reloaded(op, policies, current.value)];
    }

    // The create found another writer's ConfigMap: write the map in hand over it.
    method Overwrite(ghost was: System, me: nat, op: Op, policies: Policies, turns: seq<Turn>)
      returns (ok: bool, calls: nat)
      requires |turns| == 3 && forall t :: t in turns ==> Others(t.others, me)
      requires At(Now(), me) == Raced(op, policies) && Now() == After(was, me, turns, 1)
      modifies this
      ensures 2 <= calls <= 3 && Now() == After(was, me, turns, calls)
      ensures At(Now(), me) == Idle
      ensures ok <==> LastCommits(was, me, turns, calls, op)
    {
      var current := Refetch(me, op, policies, turns[1]);
      if current.None? {
        return false, 2;
      }
      ok := UpdateCall(me, op, policies, current.value, turns[2]);
      calls := 3;
    }

    // SetPolicy and DeletePolicy: load, change the map in hand, save.
    method Change(me: nat, op: Op, load: Turn, turns: seq<Turn>) returns (ok: bool, calls: nat)
      requires |turns| == 3 && Others(load.others, me) && forall t :: t in turns ==> Others(t.others, me)
      requires At(Now(), me) == Idle
      modifies this
      ensures calls <= 3 && (calls == 0 <==> load.fails)
      ensures var loaded := Step(Run(old(Now()), load.others), Load(me, op, load.fails));
              && Now() == After(loaded, me, turns, calls)
              && (ok <==> LastCommits(loaded, me, turns, calls, op))
      ensures At(Now(), me) == Idle
      ensures Undisturbed(old(Now()), me, op, load, turns[0]) ==>
                && ok && calls == 1 && server.stored.Some?
                && Changed(PoliciesOf(Run(old(Now()), load.others).server), op, server.stored.value.policies)
      ensures Run(old(Now()), load.others).server.stored.Some? ==>
                (ok <==> Undisturbed(old(Now()), me, op, load, turns[0]))
    {
      FirstCall(Now(), me, op, load, turns);
      var loaded := LoadAndApply(me, op, load);
      if loaded.Err? {
        return false, 0;
      }
      ok, calls := Save(me, op, loaded.value.0, loaded.value.1, turns);
    }
  }

  // After the first k turns: each is what the others do, then one call of mine.
  function After(s: System, me: nat, turns: seq<Turn>, k: nat): System
    requires k <= |turns|
    decreases k
  {
    if k == 0 then s
    else Step(Run(After(s, me, turns, k - 1), turns[k - 1].others), Call(me, turns[k - 1].fails))
  }

  // What the first call of a save leaves: committed exactly when undisturbed, and with the change
  // asked for; otherwise, with a version in hand, given up.
  lemma FirstCall(s: System, me: nat, op: Op, load: Turn, turns: seq<Turn>)
    requires |turns| > 0 && Others(load.others, me) && Others(turns[0].others, me) && At(s, me).Idle?
    ensures var loading := Run(s, load.others);
            var loaded := Step(loading, Load(me, op, load.fails));
            var saving := Run(loaded, turns[0].others);
            var t := After(loaded, me, turns, 1);
            && (Undisturbed(s, me, op, load, turns[0]) ==>
                  && t.done == saving.done + [op] && At(t, me).Idle?
                  && t.server.stored.Some? && Changed(PoliciesOf(loading.server), op, t.server.stored.value.policies))
            && (loading.server.stored.Some? ==>
                  && At(t, me).Idle?
                  && (t.done == saving.done + [op] ==> Undisturbed(s, me, op, load, turns[0])))
  {
    var loading := Run(s, load.others);
    OthersLeaveMine(s, load.others, me);
    var loaded := Step(loading, Load(me, op, load.fails));
    OthersLeaveMine(loaded, turns[0].others, me);
    var saving := Run(loaded, turns[0].others);
    assert After(loaded, me, turns, 0) == loaded;
    assert After(loaded, me, turns, 1) == Step(saving, Call(me, turns[0].fails));
    assert saving.done != saving.done + [op];
  }

  // Stated at rest: with nobody else about and no call failing, the operation takes effect.
  lemma ChangeAlone(s: System, me: nat, op: Op, turns: seq<Turn>)
    requires At(s, me).Idle? && |turns| > 0 && turns[0] == Turn([], false)
    ensures var t := After(Step(s, Load(me, op, false)), me, turns, 1);
            && t.done == s.done + [op]
            && t.server.stored.Some? && Changed(PoliciesOf(s.server), op, t.server.stored.value.policies)
  {
    FirstCall(s, me, op, Turn([], false), turns);
    assert Run(s, []) == s;
  }

  // The operation took effect, and with the last call.
  predicate LastCommits(s: System, me: nat, turns: seq<Turn>, k: nat, op: Op)
    requires k <= |turns|
  {
    k > 0 && After(s, me, turns, k).done == Run(After(s, me, turns, k - 1), turns[k - 1].others).done + [op]
  }

  // The same turns as one sequence of events.
  function Trace(me: nat, turns: seq<Turn>, k: nat): seq<Event>
    requires k <= |turns|
    decreases k
  {
    if k == 0 then [] else Trace(me, turns, k - 1) + turns[k - 1].others + [Call(me, turns[k - 1].fails)]
  }

  lemma TurnIsARun(s: System, before: seq<Event>, turn: Turn, me: nat)
    ensures Run(s, before + turn.others + [Call(me, turn.fails)]) ==
              Step(Run(Run(s, before), turn.others), Call(me, turn.fails))
  {
    RunJoins(s, before, turn.others);
    RunThenStep(s, before + turn.others, Call(me, turn.fails));
  }

  lemma {:induction false} TurnsAreARun(s: System, me: nat, turns: seq<Turn>, k: nat)
    requires k <= |turns|
    ensures After(s, me, turns, k) == Run(s, Trace(me, turns, k))
    decreases k
  {
    if k > 0 {
      TurnsAreARun(s, me, turns, k - 1);
      TurnIsARun(s, Trace(me, turns, k - 1), turns[k - 1], me);
    }
  }

  lemma RunThenStep(s: System, events: seq<Event>, e: Event)
    ensures Run(s, events + [e]) == Step(Run(s, events), e)
  {
    assert (events + [e])[..|events|] == events;
  }

  lemma {:induction false} RunJoins(s: System, a: seq<Event>, b: seq<Event>)
    ensures Run(s, a + b) == Run(Run(s, a), b)
    decreases |b|
  {
    if b == [] {
      assert a + b == a;
    } else {
      assert (a + b)[..|a + b| - 1] == a + b[..|b| - 1];
      RunJoins(s, a, b[..|b| - 1]);
    }
  }

  lemma {:induction false} OthersLeaveMine(s: System, events: seq<Event>, me: nat)
    requires Others(events, me)
    ensures At(Run(s, events), me) == At(s, me)
    decreases |events|
  {
    if events != [] {
      OthersLeaveMine(s, events[..|events| - 1], me);
    }
  }

  /******* No lost updates *******/

  predicate Started(s: System) {
    && s.requests == map[] && s.done == []
    && (s.server.stored.Some? ==> s.server.stored.value.version <= s.server.revision)
  }

  predicate NothingLost(start: System, s: System) {
    PoliciesOf(s.server) == Fold(PoliciesOf(start.server), s.done)
  }

  // A request whose read is still current writes what is stored with its own change applied.
  predicate Faithful(server: Server, r: Request) {
    r.Loaded? ==>
      && (r.version.Some? ==> r.version.value <= server.revision)
      && (r.version == VersionOf(server) ==> r.policies == Apply(r.op, PoliciesOf(server)))
  }

  ghost predicate NoneRaced(s: System) {
    forall i :: !At(s, i).Raced? && !At(s, i).Reloaded?
  }

  ghost predicate Inv(start: System, s: System) {
    && (s.server.stored.Some? ==> s.server.stored.value.version <= s.server.revision)
    && (forall i :: Faithful(s.server, At(s, i)))
    && NothingLost(start, s)
  }

  // No request ever found the ConfigMap created behind its back.
  ghost predicate RaceFree(start: System, events: seq<Event>) {
    forall k :: 0 <= k <= |events| ==> NoneRaced(Run(start, events[..k]))
  }

  lemma FoldNext(start: Policies, ops: seq<Op>, op: Op)
    ensures Fold(start, ops + [op]) == Apply(op, Fold(start, ops))
  {
    assert (ops + [op])[..|ops|] == ops;
  }

  lemma GoesKeeps(start: System, s: System, client: nat, to: Request)
    requires Inv(start, s) && Faithful(s.server, to)
    ensures Inv(start, Goes(s, client, to))
  {
    var t := Goes(s, client, to);
    forall i ensures Faithful(t.server, At(t, i)) {
      assert Faithful(s.server, At(s, i));
    }
  }

  // After a write no request that read before it is current.
  lemma WriteOutdates(server: Server, r: Request, policies: Policies)
    requires Faithful(server, r)
    ensures Faithful(Write(server, policies), r)
  {
  }

  lemma AtGoes(s: System, client: nat, to: Request, i: nat)
    ensures At(Goes(s, client, to), i) == if i == client then to else At(s, i)
  {
  }

  lemma CommitIsFaithful(s: System, client: nat, op: Op, policies: Policies)
    requires forall i :: Faithful(s.server, At(s, i))
    ensures var t := Commit(s, client, op, policies); forall i :: Faithful(t.server, At(t, i))
  {
    var server, t := Write(s.server, policies), Commit(s, client, op, policies);
    forall i ensures Faithful(server, At(t, i)) {
      AtGoes(s, client, Idle, i);
      assert Faithful(s.server, At(s, i));
      WriteOutdates(s.server, At(s, i), policies);
      assert At(t, i) == At(Goes(s, client, Idle), i);
    }
  }

  lemma CommitLosesNothing(start: System, s: System, client: nat, op: Op, policies: Policies)
    requires NothingLost(start, s) && policies == Apply(op, PoliciesOf(s.server))
    ensures NothingLost(start, Commit(s, client, op, policies))
  {
    var t := Commit(s, client, op, policies);
    assert t.done == s.done + [op] && PoliciesOf(t.server) == policies;
    FoldNext(PoliciesOf(start.server), s.done, op);
  }

  lemma CommitKeeps(start: System, s: System, client: nat, op: Op, policies: Policies)
    requires Inv(start, s) && policies == Apply(op, PoliciesOf(s.server))
    ensures Inv(start, Commit(s, client, op, policies))
  {
    CommitIsFaithful(s, client, op, policies);
    CommitLosesNothing(start, s, client, op, policies);
  }

  lemma InvStep(start: System, s: System, e: Event)
    requires Inv(start, s) && NoneRaced(s)
    ensures Inv(start, Step(s, e))
  {
    var r := At(s, e.client);
    assert Faithful(s.server, r) && !r.Raced? && !r.Reloaded?;
    GoesKeeps(start, s, e.client, Idle);
    if e.Load? {
      GoesKeeps(start, s, e.client, Loaded(e.op, Apply(e.op, PoliciesOf(s.server)), VersionOf(s.server)));
    } else if r.Loaded? && r.version == VersionOf(s.server) {
      CommitKeeps(start, s, e.client, r.op, r.policies);
    } else if r.Loaded? && r.version.None? {
      GoesKeeps(start, s, e.client, Raced(r.op, r.policies));
    }
  }

  lemma {:induction false} RaceFreeInv(start: System, events: seq<Event>)
    requires Started(start) && RaceFree(start, events)
    ensures Inv(start, Run(start, events))
    decreases |events|
  {
    if events != [] {
      var front := events[..|events| - 1];
      forall k | 0 <= k <= |front| ensures NoneRaced(Run(start, front[..k])) {
        assert front[..k] == events[..k];
      }
      RaceFreeInv(start, front);
      assert events[..|front|] == front;
      InvStep(start, Run(start, front), events[|front|]);
    }
  }

  // Once the ConfigMap is there, a request that reads it reads a version.
  ghost predicate Versioned(s: System) {
    && s.server.stored.Some?
    && forall i :: At(s, i).Idle? || (At(s, i).Loaded? && At(s, i).version.Some?)
  }

  lemma VersionedStep(s: System, e: Event)
    requires Versioned(s)
    ensures Versioned(Step(s, e))
  {
    assert At(s, e.client).Idle? || (At(s, e.client).Loaded? && At(s, e.client).version.Some?);
    forall i ensures At(Step(s, e), i).Idle? || (At(Step(s, e), i).Loaded? && At(Step(s, e), i).version.Some?) {
      assert At(s, i).Idle? || (At(s, i).Loaded? && At(s, i).version.Some?);
    }
  }

  lemma {:induction false} ExistingIsVersioned(start: System, events: seq<Event>)
    requires Started(start) && start.server.stored.Some?
    ensures Versioned(Run(start, events))
    decreases |events|
  {
    if events != [] {
      ExistingIsVersioned(start, events[..|events| - 1]);
      VersionedStep(Run(start, events[..|events| - 1]), events[|events| - 1]);
    }
  }

  // Whatever the interleaving and the failures, a run without that race stores exactly the
  // successful operations, applied in the order they took effect.
  lemma RaceFreeLosesNothing(start: System, events: seq<Event>)
    requires Started(start) && RaceFree(start, events)
    ensures NothingLost(start, Run(start, events))
  {
    RaceFreeInv(start, events);
  }

  // Two operations load while there is no ConfigMap; the second one's save wipes out the first.
  function FirstWriters(a: Op, b: Op): seq<Event> {
    [Load(0, a, false), Load(1, b, false), Call(0, false), Call(1, false), Call(1, false), Call(1, false)]
  }

  lemma FirstWritersRace(start: System, a: Op, b: Op)
    requires Started(start) && start.server.stored.None?
    ensures var s := Run(start, FirstWriters(a, b)); s.done == [a, b] && PoliciesOf(s.server) == Apply(b, map[])
  {
    var e := FirstWriters(a, b);
    var s1 := Step(start, e[0]);
    var s2 := Step(s1, e[1]);
    var s3 := Step(s2, e[2]);
    var s4 := Step(s3, e[3]);
    var s5 := Step(s4, e[4]);
    assert e[..0] == [] && Run(start, e[..0]) == start;
    RunThenStep(start, e[..0], e[0]);
    assert e[..1] == e[..0] + [e[0]];
    RunThenStep(start, e[..1], e[1]);
    assert e[..2] == e[..1] + [e[1]];
    RunThenStep(start, e[..2], e[2]);
    assert e[..3] == e[..2] + [e[2]];
    RunThenStep(start, e[..3], e[3]);
    assert e[..4] == e[..3] + [e[3]];
    RunThenStep(start, e[..4], e[4]);
    assert e[..5] == e[..4] + [e[4]];
    RunThenStep(start, e[..5], e[5]);
    assert e == e[..5] + [e[5]];
  }

  // The last successful operation that concerns an entry has decided it; with none, it is as it was.
  ghost predicate LastWord(start: Policies, done: seq<Op>, key: string, now: Policies) {
    && (forall i | 0 <= i < |done| && IsLast(done, key, i) ::
          if done[i].SetPolicy? then key in now && now[key] == done[i].policy else key !in now)
    && ((forall i | 0 <= i < |done| :: !Concerns(done[i], key)) ==>
          (key in now <==> key in start) && (key in now ==> now[key] == start[key]))
  }

  ghost predicate IsLast(done: seq<Op>, key: string, i: nat)
    requires i < |done|
  {
    Concerns(done[i], key) && forall j | i < j < |done| :: !Concerns(done[j], key)
  }

  lemma LaterOperation(start: Policies, front: seq<Op>, op: Op, key: string, now: Policies)
    requires LastWord(start, front, key, now)
    ensures LastWord(start, front + [op], key, Apply(op, now))
  {
    var done := front + [op];
    forall i | 0 <= i < |done| && IsLast(done, key, i)
      ensures if Concerns(op, key) then i == |front| else i < |front| && IsLast(front, key, i)
    {
      assert done[|front|] == op;
      if !Concerns(op, key) {
        assert forall j | i < j < |front| :: done[j] == front[j];
      }
    }
    assert Concerns(done[|front|], key) <==> Concerns(op, key);
    assert (forall i | 0 <= i < |done| :: !Concerns(done[i], key)) ==>
        forall i | 0 <= i < |front| :: !Concerns(front[i], key) by {
      assert forall i | 0 <= i < |front| :: front[i] == done[i];
    }
  }

  lemma {:induction false} FoldIsLastWord(start: Policies, done: seq<Op>, key: string)
    ensures LastWord(start, done, key, Fold(start, done))
  {
    if done != [] {
      var front, op := done[..|done| - 1], done[|done| - 1];
      FoldIsLastWord(start, front, key);
      LaterOperation(start, front, op, key, Fold(start, front));
      assert done == front + [op];
    }
  }

  // So once the ConfigMap is there, every entry is what the last successful operation on it says.
  lemma LastWriteStands(start: System, events: seq<Event>, key: string)
    requires Started(start) && start.server.stored.Some?
    ensures var s := Run(start, events);
            && s.server.stored.Some?
            && LastWord(start.server.stored.value.policies, s.done, key, s.server.stored.value.policies)
  {
    NoLostUpdates(start);
    ExistingIsVersioned(start, events);
    var s := Run(start, events);
    assert NothingLost(start, Run(start, events));
    FoldIsLastWord(PoliciesOf(start.server), s.done, key);
  }

  // Updates can be lost exactly while there is no ConfigMap yet.
  lemma NoLostUpdates(start: System)
    requires Started(start)
    ensures (forall events: seq<Event> :: NothingLost(start, Run(start, events))) <==> start.server.stored.Some?
  {
    if start.server.stored.Some? {
      forall events: seq<Event> ensures NothingLost(start, Run(start, events)) {
        forall k | 0 <= k <= |events| ensures NoneRaced(Run(start, events[..k])) {
          ExistingIsVersioned(start, events[..k]);
        }
        RaceFreeLosesNothing(start, events);
      }
    } else {
      var a, b := SetPolicy("a", NO_POLICY), SetPolicy("b", NO_POLICY);
      FirstWritersRace(start, a, b);
      FoldNext(map[], [a], b);
      FoldNext(map[], [], a);
      assert [] + [a] == [a] && [a] + [b] == [a, b];
      assert "a" in Fold(map[], [a, b]);
      assert "a" !in Apply(b, map[]);
      assert !NothingLost(start, Run(start, FirstWriters(a, b)));
    }
  }

  // The events of one SetPolicy or DeletePolicy that makes k calls after its load.
  function ChangeTrace(me: nat, op: Op, load: Turn, turns: seq<Turn>, k: nat): seq<Event>
    requires k <= |turns|
  {
    load.others + [Load(me, op, load.fails)] + Trace(me, turns, k)
  }

  // What the store's own Change leaves is a run of the interleaved system.
  lemma ChangeIsARun(s: System, me: nat, op: Op, load: Turn, turns: seq<Turn>, k: nat)
    requires k <= |turns|
    ensures After(Step(Run(s, load.others), Load(me, op, load.fails)), me, turns, k) ==
              Run(s, ChangeTrace(me, op, load, turns, k))
  {
    var loading := load.others + [Load(me, op, load.fails)];
    RunThenStep(s, load.others, Load(me, op, load.fails));
    TurnsAreARun(Run(s, loading), me, turns, k);
    RunJoins(s, loading, Trace(me, turns, k));
  }

  // So setting and deleting policies loses nothing once the ConfigMap is there: whatever ran
  // before, whatever the other replicas do in between, and whichever calls fail.
  lemma ChangeLosesNothing(
      start: System, earlier: seq<Event>, me: nat, op: Op, load: Turn, turns: seq<Turn>, k: nat)
    requires Started(start) && start.server.stored.Some? && k <= |turns|
    ensures var loaded := Step(Run(Run(start, earlier), load.others), Load(me, op, load.fails));
            NothingLost(start, After(loaded, me, turns, k))
  {
    var trace := ChangeTrace(me, op, load, turns, k);
    ChangeIsARun(Run(start, earlier), me, op, load, turns, k);
    RunJoins(start, earlier, trace);
    NoLostUpdates(start);
    assert NothingLost(start, Run(start, earlier + trace));
  }
}
