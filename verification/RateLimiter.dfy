/** Keyed token buckets with eviction of idle entries. */
module RateLimiter {
  import opened TokenBucket

  datatype Config = Config(perIPRate: real, perIPBurst: int, perUserRate: real, perUserBurst: int, ttl: real)

  // What a configured burst that is not positive falls back to.
  function EffectiveBurst(rate: real, burst: int): nat
    requires rate > 0.0
  {
    if burst <= 0 then (if rate.Floor > 1 then rate.Floor else 1) else burst
  }

  function LimitOf(rate: real, burst: int): (l: Limit)
    requires rate > 0.0
    ensures ValidLimit(l)
  {
    Limit(rate, EffectiveBurst(rate, burst))
  }

  datatype Entry = Entry(bucket: Bucket, lastSeen: real)

  type Table = map<string, Entry>

  // The entry a request at `now` works on: found or new, and marked as seen.
  function Touched(t: Table, l: Limit, key: string, now: real): Entry {
    Entry(if key in t then t[key].bucket else Full(l, now), now)
  }

  predicate Admits(t: Table, l: Limit, key: string, cost: nat, now: real) {
    Allows(l, Touched(t, l, key, now).bucket, cost, now)
  }

  function Charge(t: Table, l: Limit, key: string, cost: nat, now: real): Table {
    var e := Touched(t, l, key, now);
    t[key := e.(bucket := Take(l, e.bucket, cost, now))]
  }

  function Evict(t: Table, ttl: real, now: real): Table {
    map key | key in t && !(t[key].lastSeen < now - ttl) :: t[key]
  }

  /******* Both layers *******/

  datatype State = State(byIP: Table, byUser: Table)

  function AtLeastOne(cost: int): nat {
    if cost < 1 then 1 else cost
  }

  // The address is charged first; a refusal there leaves the user's bucket alone, one by the
  // user's bucket keeps the address charged.
  function Gate(c: Config, s: State, ip: string, user: string, cost: int, now: real): (State, bool) {
    var n := AtLeastOne(cost);
    var checksIP := c.perIPRate > 0.0 && ip != "";
    var ipOk := checksIP ==> Admits(s.byIP, LimitOf(c.perIPRate, c.perIPBurst), ip, n, now);
    var byIP := if checksIP then Charge(s.byIP, LimitOf(c.perIPRate, c.perIPBurst), ip, n, now) else s.byIP;
    if !ipOk then (State(byIP, s.byUser), false)
    else if c.perUserRate > 0.0 && user != "" then
      var l := LimitOf(c.perUserRate, c.perUserBurst);
      (State(byIP, Charge(s.byUser, l, user, n, now)), Admits(s.byUser, l, user, n, now))
    else (State(byIP, s.byUser), true)
  }

  // One key asked for n tokens: the bucket was full when first seen and has refilled at `rate` up
  // to its size since; only an admitted request takes from it, any marks the key as seen.
  ghost predicate Asked(before: Table, rate: real, burst: int, key: string, n: int, now: real, after: Table, ok: bool) {
    var size := if burst > 0 then burst else if rate < 2.0 then 1 else rate.Floor;
    && after.Keys == before.Keys + {key}
    && (forall other | other in before && other != key :: after[other] == before[other])
    && after[key].lastSeen == now
    && if key in before
       then TakenFrom(before[key].bucket, rate, size, n, now, after[key].bucket, ok)
       else TakenFrom(Bucket(size as real, now), rate, size, n, now, after[key].bucket, ok)
  }

  ghost predicate TakenFrom(b: Bucket, rate: real, size: int, n: int, now: real, after: Bucket, ok: bool) {
    var refilled := if now > b.last then b.tokens + (now - b.last) * rate else b.tokens;
    var onHand := if refilled > size as real then size as real else refilled;
    && (ok <==> onHand >= n as real)
    && after == if ok then Bucket(onHand - n as real, now) else b
  }

  lemma ChargeIsAsked(t: Table, rate: real, burst: int, key: string, n: nat, now: real)
    requires rate > 0.0
    ensures var l := LimitOf(rate, burst);
            Asked(t, rate, burst, key, n, now, Charge(t, l, key, n, now), Admits(t, l, key, n, now))
  {
    var l := LimitOf(rate, burst);
    var e := Touched(t, l, key, now);
    TakeIsTaken(l, e.bucket, n, now);
    if key !in t {
      assert e.bucket == Bucket(l.burst as real, now);
    }
  }

  lemma TakeIsTaken(l: Limit, b: Bucket, n: nat, now: real)
    ensures TakenFrom(b, l.rate, l.burst, n, now, Take(l, b, n, now), Allows(l, b, n, now))
  {
  }

  // The address is asked first and the user only if the address may pass; what is not limited is
  // not asked, and a table that is not asked stays as it is.
  lemma GateAsks(c: Config, s: State, ip: string, user: string, cost: int, now: real) returns (ipOk: bool, userOk: bool)
    ensures var (s', ok) := Gate(c, s, ip, user, cost, now);
            var n := if cost < 1 then 1 else cost;
            && ok == (ipOk && userOk)
            && (if c.perIPRate > 0.0 && ip != ""
                then Asked(s.byIP, c.perIPRate, c.perIPBurst, ip, n, now, s'.byIP, ipOk)
                else ipOk && s'.byIP == s.byIP)
            && (if ipOk && c.perUserRate > 0.0 && user != ""
                then Asked(s.byUser, c.perUserRate, c.perUserBurst, user, n, now, s'.byUser, userOk)
                else userOk && s'.byUser == s.byUser)
  {
    var n := AtLeastOne(cost);
    ipOk, userOk := true, true;
    if c.perIPRate > 0.0 && ip != "" {
      ipOk := Admits(s.byIP, LimitOf(c.perIPRate, c.perIPBurst), ip, n, now);
      ChargeIsAsked(s.byIP, c.perIPRate, c.perIPBurst, ip, n, now);
    }
    if ipOk && c.perUserRate > 0.0 && user != "" {
      userOk := Admits(s.byUser, LimitOf(c.perUserRate, c.perUserBurst), user, n, now);
      ChargeIsAsked(s.byUser, c.perUserRate, c.perUserBurst, user, n, now);
    }
  }

  class Limiter {
    const cfg: Config
    var byIP: Table
    var byUser: Table

    constructor (cfg: Config)
      ensures this.cfg == cfg && byIP == map[] && byUser == map[]
    {
      this.cfg := cfg;
      byIP, byUser := map[], map[];
    }

    method GateRequestN(ip: string, user: string, cost0: int, now: real) returns (allowed: bool)
      modifies this
      ensures (State(byIP, byUser), allowed) == Gate(cfg, State(old(byIP), old(byUser)), ip, user, cost0, now)
    {
      var cost := cost0;
      if cost < 1 {
        cost := 1;
      }
      if cfg.perIPRate > 0.0 && ip != "" {
        var l := LimitOf(cfg.perIPRate, cfg.perIPBurst);
        var e := Touched(byIP, l, ip, now);
        allowed := Allows(l, e.bucket, cost, now);
        byIP := byIP[ip := e.(bucket := Take(l, e.bucket, cost, now))];
        if !allowed {
          return false;
        }
      }
      if cfg.perUserRate > 0.0 && user != "" {
        var l := LimitOf(cfg.perUserRate, cfg.perUserBurst);
        var e := Touched(byUser, l, user, now);
        allowed := Allows(l, e.bucket, cost, now);
        byUser := byUser[user := e.(bucket := Take(l, e.bucket, cost, now))];
        if !allowed {
          return false;
        }
      }
      return true;
    }

    method EvictStale(now: real)
      modifies this
      ensures byIP == Evict(old(byIP), cfg.ttl, now) && byUser == Evict(old(byUser), cfg.ttl, now)
      ensures byIP == map key | key in old(byIP) && old(byIP)[key].lastSeen >= now - cfg.ttl :: old(byIP)[key]
      ensures byUser == map key | key in old(byUser) && old(byUser)[key].lastSeen >= now - cfg.ttl :: old(byUser)[key]
    {
      byIP := Sweep(byIP, now - cfg.ttl);
      byUser := Sweep(byUser, now - cfg.ttl);
    }

    static method Sweep(t: Table, cutoff: real) returns (kept: Table)
      ensures kept == map key | key in t && !(t[key].lastSeen < cutoff) :: t[key]
    {
      kept := t;
      var todo := t.Keys;
      while todo != {}
        invariant todo <= t.Keys
        invariant kept == map key | key in t && (key in todo || !(t[key].lastSeen < cutoff)) :: t[key]
        decreases |todo|
      {
        var key :| key in todo;
        if t[key].lastSeen < cutoff {
          kept := kept - {key};
        }
        todo := todo - {key};
      }
    }
  }

  /******* Runs *******/

  datatype Event =
    | Request(ip: string, user: string, cost: int, at: real)
    | EvictAt(at: real)

  ghost predicate InOrder(events: seq<Event>) {
    forall i, j | 0 <= i < j < |events| :: events[i].at <= events[j].at
  }

  // Answers of a limiter that evicts when told, or of one that never does.
  function Answers(c: Config, s: State, events: seq<Event>, evicts: bool): seq<bool>
    decreases |events|
  {
    if events == [] then []
    else match events[0]
      case Request(ip, user, cost, at) =>
        var (s', ok) := Gate(c, s, ip, user, cost, at);
        [ok] + Answers(c, s', events[1..], evicts)
      case EvictAt(at) =>
        var s' := if evicts then State(Evict(s.byIP, c.ttl, at), Evict(s.byUser, c.ttl, at)) else s;
        Answers(c, s', events[1..], evicts)
  }

  // An idle entry is full again when it becomes evictable.
  predicate RefillsInTime(rate: real, burst: int, ttl: real) {
    rate > 0.0 ==> rate * ttl >= EffectiveBurst(rate, burst) as real
  }

  /******* Simulation *******/

  ghost predicate Sane(t: Table, l: Limit, now: real) {
    forall key | key in t :: ValidBucket(l, t[key].bucket) && t[key].bucket.last <= t[key].lastSeen <= now
  }

  // The evicting table `t` beside `whole`, which keeps everything.
  ghost predicate Simulates(t: Table, whole: Table, l: Limit, now: real) {
    && Sane(t, l, now) && Sane(whole, l, now)
    && t.Keys <= whole.Keys
    && (forall key | key in whole ::
          Alike(l, if key in t then t[key].bucket else Full(l, now), whole[key].bucket, now))
  }

  lemma SimulatesLater(t: Table, whole: Table, l: Limit, now: real, later: real)
    requires ValidLimit(l) && Simulates(t, whole, l, now) && now <= later
    ensures Simulates(t, whole, l, later)
  {
    forall key | key in whole
      ensures Alike(l, if key in t then t[key].bucket else Full(l, later), whole[key].bucket, later)
    {
      AlikeStaysAlike(l, if key in t then t[key].bucket else Full(l, now), whole[key].bucket, now, later);
      if key !in t {
        AvailableGrows(l, whole[key].bucket, now, later);
      }
    }
  }

  lemma ChargeSimulates(t: Table, whole: Table, l: Limit, key: string, cost: nat, now: real)
    requires ValidLimit(l) && Simulates(t, whole, l, now)
    ensures Admits(t, l, key, cost, now) == Admits(whole, l, key, cost, now)
    ensures Simulates(Charge(t, l, key, cost, now), Charge(whole, l, key, cost, now), l, now)
  {
    var a, b := Touched(t, l, key, now).bucket, Touched(whole, l, key, now).bucket;
    assert Alike(l, a, b, now);
    AlikeAnswers(l, a, b, cost, now);
    TakeIsValid(l, a, cost, now);
    TakeIsValid(l, b, cost, now);
  }

  lemma EvictSimulates(t: Table, whole: Table, l: Limit, ttl: real, now: real)
    requires ValidLimit(l) && Simulates(t, whole, l, now) && l.rate * ttl >= l.burst as real
    ensures Simulates(Evict(t, ttl, now), whole, l, now)
  {
    var t' := Evict(t, ttl, now);
    if ttl < 0.0 { Scale(l.rate, ttl, 0.0); }
    forall key | key in whole
      ensures Alike(l, if key in t' then t'[key].bucket else Full(l, now), whole[key].bucket, now)
    {
      if key in t && key !in t' {
        IdleRefills(l, t[key].bucket, ttl, now);
      }
    }
  }

  ghost predicate BothSimulate(c: Config, s: State, whole: State, now: real) {
    && (c.perIPRate > 0.0 ==> Simulates(s.byIP, whole.byIP, LimitOf(c.perIPRate, c.perIPBurst), now))
    && (c.perUserRate > 0.0 ==> Simulates(s.byUser, whole.byUser, LimitOf(c.perUserRate, c.perUserBurst), now))
  }

  lemma GateSimulates(c: Config, s: State, whole: State, e: Event, now: real)
    requires BothSimulate(c, s, whole, now) && e.Request? && now <= e.at
    ensures var (s', ok) := Gate(c, s, e.ip, e.user, e.cost, e.at);
            var (whole', ok') := Gate(c, whole, e.ip, e.user, e.cost, e.at);
            ok == ok' && BothSimulate(c, s', whole', e.at)
  {
    var n := AtLeastOne(e.cost);
    if c.perIPRate > 0.0 {
      var l := LimitOf(c.perIPRate, c.perIPBurst);
      SimulatesLater(s.byIP, whole.byIP, l, now, e.at);
      ChargeSimulates(s.byIP, whole.byIP, l, e.ip, n, e.at);
    }
    if c.perUserRate > 0.0 {
      var l := LimitOf(c.perUserRate, c.perUserBurst);
      SimulatesLater(s.byUser, whole.byUser, l, now, e.at);
      ChargeSimulates(s.byUser, whole.byUser, l, e.user, n, e.at);
    }
  }

  lemma {:induction false} SimulationAnswers(c: Config, s: State, whole: State, events: seq<Event>, now: real)
    requires RefillsInTime(c.perIPRate, c.perIPBurst, c.ttl) && RefillsInTime(c.perUserRate, c.perUserBurst, c.ttl)
    requires BothSimulate(c, s, whole, now) && InOrder(events) && (events != [] ==> now <= events[0].at)
    ensures Answers(c, s, events, true) == Answers(c, whole, events, false)
    decreases |events|
  {
    if events != [] {
      var e, rest := events[0], events[1..];
      assert forall i | 0 <= i < |rest| :: rest[i] == events[i + 1];
      match e
      case Request(ip, user, cost, at) =>
        GateSimulates(c, s, whole, e, now);
        SimulationAnswers(c, Gate(c, s, ip, user, cost, at).0, Gate(c, whole, ip, user, cost, at).0, rest, at);
      case EvictAt(at) =>
        if c.perIPRate > 0.0 {
          var l := LimitOf(c.perIPRate, c.perIPBurst);
          SimulatesLater(s.byIP, whole.byIP, l, now, at);
          EvictSimulates(s.byIP, whole.byIP, l, c.ttl, at);
        }
        if c.perUserRate > 0.0 {
          var l := LimitOf(c.perUserRate, c.perUserBurst);
          SimulatesLater(s.byUser, whole.byUser, l, now, at);
          EvictSimulates(s.byUser, whole.byUser, l, c.ttl, at);
        }
        SimulationAnswers(c, State(Evict(s.byIP, c.ttl, at), Evict(s.byUser, c.ttl, at)), whole, rest, at);
    }
  }

  /******* When eviction can be observed *******/

  const EMPTY := State(map[], map[])

  lemma AnswersOfThree(c: Config, first: Event, t: real, again: Event, evicts: bool)
    requires first.Request? && again.Request?
    ensures var (s1, ok1) := Gate(c, EMPTY, first.ip, first.user, first.cost, first.at);
            var s2 := if evicts then State(Evict(s1.byIP, c.ttl, t), Evict(s1.byUser, c.ttl, t)) else s1;
            Answers(c, EMPTY, [first, EvictAt(t), again], evicts)
            == [ok1, Gate(c, s2, again.ip, again.user, again.cost, again.at).1]
  {
    var (s1, ok1) := Gate(c, EMPTY, first.ip, first.user, first.cost, first.at);
    var s2 := if evicts then State(Evict(s1.byIP, c.ttl, t), Evict(s1.byUser, c.ttl, t)) else s1;
    var events := [first, EvictAt(t), again];
    assert events[1..] == [EvictAt(t), again] && [EvictAt(t), again][1..] == [again] && [again][1..] == [];
    assert Answers(c, s1, [EvictAt(t), again], evicts) == Answers(c, s2, [again], evicts);
    assert Answers(c, s2, [again], evicts) == [Gate(c, s2, again.ip, again.user, again.cost, again.at).1];
  }

  // Strictly between the TTL and the refill.
  lemma EarlyMoment(rate: real, burst: nat, ttl: real) returns (t: real)
    requires rate > 0.0 && ttl >= 0.0 && rate * ttl < burst as real
    ensures ttl < t && t * rate < burst as real
  {
    var full := burst as real / rate;
    assert full * rate == burst as real;
    if full <= ttl { Scale(rate, full, ttl); }
    t := (ttl + full) / 2.0;
    assert (full - t) * rate > 0.0;
    assert t * rate == full * rate - (full - t) * rate;
  }

  lemma DrainedTable(l: Limit, key: string, ttl: real, t: real)
    requires ValidLimit(l) && ttl >= 0.0 && ttl < t && t * l.rate < l.burst as real
    ensures var drained := Charge(map[], l, key, l.burst, 0.0);
            && Admits(map[], l, key, l.burst, 0.0) && Admits(map[], l, key, l.burst, t)
            && !Admits(drained, l, key, l.burst, t)
            && Evict(drained, ttl, t) == map[] && Evict(map[], ttl, t) == map[]
  {
    var drained := Charge(map[], l, key, l.burst, 0.0);
    assert drained == map[key := Entry(Bucket(0.0, 0.0), 0.0)];
  }

  // Drain a key, sweep after the TTL but before the refill, and ask again.
  lemma EarlyEvictionShows(c: Config, ip: string, user: string, rate: real, burst: int)
    requires (ip == "") != (user == "") && rate > 0.0 && c.ttl >= 0.0
    requires if ip != "" then rate == c.perIPRate && burst == c.perIPBurst
             else rate == c.perUserRate && burst == c.perUserBurst
    requires !RefillsInTime(rate, burst, c.ttl)
    ensures exists events: seq<Event> ::
              InOrder(events) && Answers(c, EMPTY, events, true) != Answers(c, EMPTY, events, false)
  {
    var l := LimitOf(rate, burst);
    var t := EarlyMoment(rate, l.burst, c.ttl);
    DrainedTable(l, if ip != "" then ip else user, c.ttl, t);
    var first, again := Request(ip, user, l.burst, 0.0), Request(ip, user, l.burst, t);
    AnswersOfThree(c, first, t, again, true);
    AnswersOfThree(c, first, t, again, false);
    var events := [first, EvictAt(t), again];
    assert InOrder(events);
    assert Answers(c, EMPTY, events, true)[1] != Answers(c, EMPTY, events, false)[1];
  }

  // Eviction can never be told from the answers exactly when each layer in use refills an idle
  // bucket within the time that makes it evictable.
  lemma EvictionIsUnobservable(c: Config)
    requires c.ttl >= 0.0
    ensures (forall events: seq<Event> | InOrder(events) ::
               Answers(c, EMPTY, events, true) == Answers(c, EMPTY, events, false))
            <==> && RefillsInTime(c.perIPRate, c.perIPBurst, c.ttl)
                 && RefillsInTime(c.perUserRate, c.perUserBurst, c.ttl)
  {
    if !RefillsInTime(c.perIPRate, c.perIPBurst, c.ttl) {
      EarlyEvictionShows(c, "ip", "", c.perIPRate, c.perIPBurst);
    } else if !RefillsInTime(c.perUserRate, c.perUserBurst, c.ttl) {
      EarlyEvictionShows(c, "", "user", c.perUserRate, c.perUserBurst);
    } else {
      forall events: seq<Event> | InOrder(events)
        ensures Answers(c, EMPTY, events, true) == Answers(c, EMPTY, events, false)
      {
        SimulationAnswers(c, EMPTY, EMPTY, events, if events == [] then 0.0 else events[0].at);
      }
    }
  }

  const DEFAULT_CONFIG := Config(1.0, 30, 10.0, 100, 1800.0)

  lemma DefaultEvictionIsUnobservable()
    ensures forall events: seq<Event> | InOrder(events) ::
              Answers(DEFAULT_CONFIG, EMPTY, events, true) == Answers(DEFAULT_CONFIG, EMPTY, events, false)
  {
    EvictionIsUnobservable(DEFAULT_CONFIG);
  }

  /******* A batch costs what its items cost *******/

  predicate ValidTable(t: Table, l: Limit) {
    forall key | key in t :: ValidBucket(l, t[key].bucket)
  }

  predicate ValidState(c: Config, s: State) {
    && (c.perIPRate > 0.0 ==> ValidTable(s.byIP, LimitOf(c.perIPRate, c.perIPBurst)))
    && (c.perUserRate > 0.0 ==> ValidTable(s.byUser, LimitOf(c.perUserRate, c.perUserBurst)))
  }

  // Charging n at once is charging one and then the rest.
  lemma ChargeSplits(t: Table, l: Limit, key: string, n: nat, now: real)
    requires ValidLimit(l) && ValidTable(t, l) && n >= 2
    ensures ValidTable(Charge(t, l, key, 1, now), l)
    ensures Admits(t, l, key, n, now) <==>
              Admits(t, l, key, 1, now) && Admits(Charge(t, l, key, 1, now), l, key, n - 1, now)
    ensures Admits(t, l, key, n, now) ==>
              Charge(t, l, key, n, now) == Charge(Charge(t, l, key, 1, now), l, key, n - 1, now)
  {
    var b := Touched(t, l, key, now).bucket;
    TakeIsValid(l, b, 1, now);
    CostSplits(l, b, n, now);
  }

  predicate GateAdmitsEach(c: Config, s: State, ip: string, user: string, n: nat, now: real)
    decreases n
  {
    n == 0 ||
    var (s', ok) := Gate(c, s, ip, user, 1, now);
    ok && GateAdmitsEach(c, s', ip, user, n - 1, now)
  }

  function GateEach(c: Config, s: State, ip: string, user: string, n: nat, now: real): State
    decreases n
  {
    if n == 0 then s else GateEach(c, Gate(c, s, ip, user, 1, now).0, ip, user, n - 1, now)
  }

  lemma GateSplits(c: Config, s: State, ip: string, user: string, n: nat, now: real)
    requires ValidState(c, s) && n >= 2
    ensures var (s1, ok1) := Gate(c, s, ip, user, 1, now);
            var (rest, okRest) := Gate(c, s1, ip, user, n - 1, now);
            var (all, ok) := Gate(c, s, ip, user, n, now);
            && ValidState(c, s1)
            && (ok <==> ok1 && okRest)
            && (ok ==> all == rest)
  {
    if c.perIPRate > 0.0 && ip != "" {
      ChargeSplits(s.byIP, LimitOf(c.perIPRate, c.perIPBurst), ip, n, now);
    }
    if c.perUserRate > 0.0 && user != "" {
      ChargeSplits(s.byUser, LimitOf(c.perUserRate, c.perUserBurst), user, n, now);
    }
  }

  // A request of cost N passes both layers exactly when N single ones at that instant all would,
  // and leaves both tables as they would.
  lemma {:induction false} GateCostsItsItems(c: Config, s: State, ip: string, user: string, n: nat, now: real)
    requires ValidState(c, s) && n >= 1
    ensures Gate(c, s, ip, user, n, now).1 <==> GateAdmitsEach(c, s, ip, user, n, now)
    ensures Gate(c, s, ip, user, n, now).1 ==> Gate(c, s, ip, user, n, now).0 == GateEach(c, s, ip, user, n, now)
    decreases n
  {
    var s1 := Gate(c, s, ip, user, 1, now).0;
    if n == 1 {
      assert GateAdmitsEach(c, s1, ip, user, 0, now);
      assert GateEach(c, s1, ip, user, 0, now) == s1;
    } else {
      GateSplits(c, s, ip, user, n, now);
      GateCostsItsItems(c, s1, ip, user, n - 1, now);
    }
  }

  /******* Admitted cost in a window *******/

  datatype Layer = ByIP | ByUser

  function RateOf(c: Config, layer: Layer): real {
    if layer.ByIP? then c.perIPRate else c.perUserRate
  }

  function BurstOf(c: Config, layer: Layer): int {
    if layer.ByIP? then c.perIPBurst else c.perUserBurst
  }

  function LayerLimit(c: Config, layer: Layer): Limit
    requires RateOf(c, layer) > 0.0
  {
    LimitOf(RateOf(c, layer), BurstOf(c, layer))
  }

  function TableOf(s: State, layer: Layer): Table {
    if layer.ByIP? then s.byIP else s.byUser
  }

  function KeyIn(e: Event, layer: Layer): string
    requires e.Request?
  {
    if layer.ByIP? then e.ip else e.user
  }

  // One event of a limiter that evicts when told.
  function After(c: Config, s: State, e: Event): State {
    match e
    case Request(ip, user, cost, at) => Gate(c, s, ip, user, cost, at).0
    case EvictAt(at) => State(Evict(s.byIP, c.ttl, at), Evict(s.byUser, c.ttl, at))
  }

  // What it costs the key, if it is a request of the key's that is let through in the window.
  function Cost(c: Config, s: State, e: Event, layer: Layer, key: string, from: real, to: real): nat {
    if e.Request? && KeyIn(e, layer) == key && from <= e.at <= to && Gate(c, s, e.ip, e.user, e.cost, e.at).1
    then AtLeastOne(e.cost)
    else 0
  }

  // The cost of a key's requests in a window that the evicting limiter answers with yes.
  function AdmittedCost(c: Config, s: State, events: seq<Event>, layer: Layer, key: string, from: real, to: real): nat
    decreases |events|
  {
    if events == [] then 0
    else Cost(c, s, events[0], layer, key, from, to)
         + AdmittedCost(c, After(c, s, events[0]), events[1..], layer, key, from, to)
  }

  // What a bucket earns back between two moments.
  function Earned(l: Limit, from: real, to: real): real {
    (to - from) * l.rate
  }

  lemma EarnedAddsUp(l: Limit, from: real, at: real, to: real)
    ensures Earned(l, from, to) == Earned(l, from, at) + Earned(l, at, to)
  {
  }

  lemma EarnedIsPositive(l: Limit, from: real, to: real)
    requires ValidLimit(l) && from <= to
    ensures Earned(l, from, to) >= 0.0
  {
    Scale(l.rate, 0.0, to - from);
  }

  function OnHand(t: Table, l: Limit, key: string, now: real): real {
    Available(l, Touched(t, l, key, now).bucket, now)
  }

  lemma OnHandGrows(t: Table, l: Limit, key: string, from: real, to: real)
    requires ValidLimit(l) && Sane(t, l, from) && from <= to
    ensures OnHand(t, l, key, to) <= OnHand(t, l, key, from) + Earned(l, from, to)
    ensures 0.0 <= OnHand(t, l, key, from) <= l.burst as real
    ensures 0.0 <= OnHand(t, l, key, to) <= l.burst as real
  {
    var b := Touched(t, l, key, from).bucket;
    AvailableGrows(l, b, from, to);
    Scale(l.rate, 0.0, to - from);
  }

  // A charge takes from its own key what it admits, and nothing from another.
  lemma ChargeTakes(t: Table, l: Limit, key: string, asked: string, cost: nat, now: real)
    requires ValidLimit(l) && Sane(t, l, now)
    ensures var t' := Charge(t, l, asked, cost, now);
            && Sane(t', l, now)
            && OnHand(t', l, key, now) == OnHand(t, l, key, now)
               - if asked == key && Admits(t, l, key, cost, now) then cost as real else 0.0
  {
    var b := Touched(t, l, asked, now).bucket;
    TakeIsValid(l, b, cost, now);
    AvailableGrows(l, b, now, now);
  }

  // An evicted bucket was full.
  lemma EvictTakesNothing(t: Table, l: Limit, key: string, ttl: real, now: real)
    requires ValidLimit(l) && Sane(t, l, now) && ttl >= 0.0 && l.rate * ttl >= l.burst as real
    ensures Sane(Evict(t, ttl, now), l, now) && OnHand(Evict(t, ttl, now), l, key, now) == OnHand(t, l, key, now)
  {
    if key in t && key !in Evict(t, ttl, now) {
      IdleRefills(l, t[key].bucket, ttl, now);
    }
  }

  lemma SaneLater(t: Table, l: Limit, now: real, later: real)
    requires Sane(t, l, now) && now <= later
    ensures Sane(t, l, later)
  {
  }

  // Each event leaves the key at least as much poorer as it costs it.
  lemma EventTakes(c: Config, s: State, e: Event, layer: Layer, key: string, from: real, to: real)
    requires RateOf(c, layer) > 0.0 && RefillsInTime(RateOf(c, layer), BurstOf(c, layer), c.ttl) && c.ttl >= 0.0
    requires key != "" && Sane(TableOf(s, layer), LayerLimit(c, layer), e.at)
    ensures var l, t, t' := LayerLimit(c, layer), TableOf(s, layer), TableOf(After(c, s, e), layer);
            && Sane(t', l, e.at)
            && OnHand(t', l, key, e.at) <= OnHand(t, l, key, e.at) - Cost(c, s, e, layer, key, from, to) as real
  {
    var l, t := LayerLimit(c, layer), TableOf(s, layer);
    match e
    case Request(_, _, cost, at) => ChargeTakes(t, l, key, KeyIn(e, layer), AtLeastOne(cost), at);
    case EvictAt(at) => EvictTakesNothing(t, l, key, c.ttl, at);
  }

  // What the rest of a run can still cost the key in the window.
  function Left(t: Table, l: Limit, key: string, now: real, from: real, to: real): real {
    if now < from then l.burst as real + Earned(l, from, to)
    else if now <= to then OnHand(t, l, key, now) + Earned(l, now, to)
    else 0.0
  }

  lemma LeftShrinks(t: Table, l: Limit, key: string, now: real, at: real, from: real, to: real)
    requires ValidLimit(l) && Sane(t, l, now) && now <= at && from <= to
    ensures 0.0 <= Left(t, l, key, at, from, to) <= Left(t, l, key, now, from, to)
  {
    OnHandGrows(t, l, key, now, at);
    if at <= to {
      EarnedIsPositive(l, at, to);
      EarnedAddsUp(l, now, at, to);
      EarnedAddsUp(l, from, at, to);
    }
    if from <= at {
      EarnedIsPositive(l, from, at);
    }
    if now <= to {
      EarnedIsPositive(l, now, to);
    }
    EarnedIsPositive(l, from, to);
  }

  lemma {:induction false} AdmittedIsLeft(
      c: Config, s: State, events: seq<Event>, layer: Layer, key: string, now: real, from: real, to: real)
    requires RateOf(c, layer) > 0.0 && RefillsInTime(RateOf(c, layer), BurstOf(c, layer), c.ttl) && c.ttl >= 0.0
    requires key != "" && from <= to && InOrder(events) && (events != [] ==> now <= events[0].at)
    requires Sane(TableOf(s, layer), LayerLimit(c, layer), now)
    ensures AdmittedCost(c, s, events, layer, key, from, to) as real
            <= Left(TableOf(s, layer), LayerLimit(c, layer), key, now, from, to)
    decreases |events|
  {
    var l, t := LayerLimit(c, layer), TableOf(s, layer);
    if events == [] {
      LeftShrinks(t, l, key, now, now, from, to);
    } else {
      var e, rest := events[0], events[1..];
      assert forall i | 0 <= i < |rest| :: rest[i] == events[i + 1];
      LeftShrinks(t, l, key, now, e.at, from, to);
      SaneLater(t, l, now, e.at);
      EventTakes(c, s, e, layer, key, from, to);
      AdmittedIsLeft(c, After(c, s, e), rest, layer, key, e.at, from, to);
    }
  }

  // The bound a key's limit promises: its burst, and what the window refills.
  ghost predicate Bounded(c: Config, layer: Layer, events: seq<Event>, key: string, from: real, to: real)
    requires RateOf(c, layer) > 0.0
  {
    var l := LayerLimit(c, layer);
    AdmittedCost(c, EMPTY, events, layer, key, from, to) as real <= l.burst as real + Earned(l, from, to)
  }

  lemma WithinBound(c: Config, layer: Layer, events: seq<Event>, key: string, from: real, to: real)
    requires RateOf(c, layer) > 0.0 && RefillsInTime(RateOf(c, layer), BurstOf(c, layer), c.ttl) && c.ttl >= 0.0
    requires key != "" && from <= to && InOrder(events)
    ensures Bounded(c, layer, events, key, from, to)
  {
    var now := if events != [] && events[0].at < from then events[0].at else from;
    var early := now - 1.0;
    AdmittedIsLeft(c, EMPTY, events, layer, key, early, from, to);
  }

  lemma CostOfThree(c: Config, first: Event, t: real, again: Event, layer: Layer, key: string, to: real)
    requires first.Request? && again.Request?
    ensures var s1 := After(c, EMPTY, first);
            var s2 := After(c, s1, EvictAt(t));
            AdmittedCost(c, EMPTY, [first, EvictAt(t), again], layer, key, 0.0, to)
            == Cost(c, EMPTY, first, layer, key, 0.0, to) + Cost(c, s2, again, layer, key, 0.0, to)
  {
    var s1 := After(c, EMPTY, first);
    var s2 := After(c, s1, EvictAt(t));
    var events := [first, EvictAt(t), again];
    assert events[1..] == [EvictAt(t), again] && [EvictAt(t), again][1..] == [again] && [again][1..] == [];
    assert AdmittedCost(c, s2, [again], layer, key, 0.0, to) == Cost(c, s2, again, layer, key, 0.0, to);
    assert AdmittedCost(c, s1, [EvictAt(t), again], layer, key, 0.0, to) == Cost(c, s2, again, layer, key, 0.0, to);
  }

  // Two bursts in less time than one takes to refill.
  lemma EarlyEvictionOverdraws(c: Config, layer: Layer) returns (events: seq<Event>, to: real)
    requires RateOf(c, layer) > 0.0 && c.ttl >= 0.0 && !RefillsInTime(RateOf(c, layer), BurstOf(c, layer), c.ttl)
    ensures InOrder(events) && 0.0 <= to && !Bounded(c, layer, events, "key", 0.0, to)
  {
    var l := LayerLimit(c, layer);
    to := EarlyMoment(l.rate, l.burst, c.ttl);
    DrainedTable(l, "key", c.ttl, to);
    var ip, user := if layer.ByIP? then "key" else "", if layer.ByIP? then "" else "key";
    var first, again := Request(ip, user, l.burst, 0.0), Request(ip, user, l.burst, to);
    events := [first, EvictAt(to), again];
    CostOfThree(c, first, to, again, layer, "key", to);
    assert TableOf(After(c, EMPTY, first), layer) == Charge(map[], l, "key", l.burst, 0.0);
    assert Cost(c, EMPTY, first, layer, "key", 0.0, to) == l.burst;
    assert Cost(c, After(c, After(c, EMPTY, first), EvictAt(to)), again, layer, "key", 0.0, to) == l.burst;
  }

  // Over every run and every schedule of evictions a key is let through at most its burst and what
  // the window refills, exactly when its layer refills an idle bucket within the time that makes
  // it evictable.
  lemma WindowBound(c: Config, layer: Layer)
    requires RateOf(c, layer) > 0.0 && c.ttl >= 0.0
    ensures (forall events: seq<Event>, key: string, from: real, to: real
               | InOrder(events) && key != "" && from <= to :: Bounded(c, layer, events, key, from, to))
            <==> RefillsInTime(RateOf(c, layer), BurstOf(c, layer), c.ttl)
  {
    if RefillsInTime(RateOf(c, layer), BurstOf(c, layer), c.ttl) {
      forall events: seq<Event>, key: string, from: real, to: real | InOrder(events) && key != "" && from <= to
        ensures Bounded(c, layer, events, key, from, to)
      {
        WithinBound(c, layer, events, key, from, to);
      }
    } else {
      var events, to := EarlyEvictionOverdraws(c, layer);
    }
  }
}
