/** Creating a batch of sandboxes: one gate over the whole batch, then item by item. */
module BulkCreate {
  import opened Wrappers
  import opened Api
  import opened Governance
  import Chain = TemplateChain

  datatype Setting = Unset | Malformed | Given(value: int)

  datatype Item = Item(
    name: string,
    namespace: string,
    template: Option<Reference>,
    timeout: Setting,
    idleTimeout: Setting,
    storage: Option<int>
  )

  // What the router reads besides the sandboxes, template modes included, and which of its API
  // calls fail: the namespaces whose policy cannot be resolved or whose list fails, and the items
  // the API server turns down.
  datatype Cluster = Cluster(
    policies: Option<Policies>,
    unresolved: set<string>,
    unlisted: set<string>,
    modes: map<Chain.ObjectKey, string>,
    defaultNamespace: string,
    refusedByServer: set<nat>
  )

  // The policy enforced on a namespace, if any.
  function Governing(c: Cluster, ns: string): Option<Policy> {
    if c.policies.None? || ns in c.unresolved then None
    else
      var p := Resolve(c.policies.value, ns);
      if IsEmpty(p) then None else Some(p)
  }

  // The template the router reads a mode from. Its default kind is the cluster-wide one.
  function ModeKey(ref: Reference, ns: string): Option<Chain.ObjectKey> {
    if ref.kind == "" || ref.kind == "ClusterSandboxTemplate" then Some(Chain.ClusterWide(ref.name))
    else if ref.kind == "SandboxTemplate" then
      Some(Chain.Namespaced(if ref.namespace == "" then ns else ref.namespace, ref.name))
    else None
  }

  function TemplateMode(c: Cluster, template: Option<Reference>, ns: string): string {
    if template.None? || template.value.name == "" then ""
    else
      var key := ModeKey(template.value, ns);
      if key.Some? && key.value in c.modes then c.modes[key.value] else ""
  }

  function NamespaceOf(c: Cluster, item: Item): string {
    if item.namespace == "" then c.defaultNamespace else item.namespace
  }

  function ItemMode(c: Cluster, item: Item): string {
    TemplateMode(c, item.template, NamespaceOf(c, item))
  }

  function InNamespace(objects: seq<SandboxObject>, ns: string): seq<SandboxObject> {
    if objects == [] then []
    else
      var front, last := objects[..|objects| - 1], objects[|objects| - 1];
      if last.namespace == ns then InNamespace(front, ns) + [last] else InNamespace(front, ns)
  }

  function UsageIn(objects: seq<SandboxObject>, ns: string, user: string): Usage {
    UsageOfAll(InNamespace(objects, ns), user)
  }

  predicate Exists(objects: seq<SandboxObject>, ns: string, name: string) {
    exists sb | sb in objects :: sb.namespace == ns && sb.name == name
  }

  /******* One item *******/

  datatype ItemError =
    | NameRequired | TemplateRequired | InvalidTimeout | InvalidIdleTimeout
    | PolicyViolation(violations: seq<Violation>)
    | CreateFailed

  datatype ItemResult = Created(index: nat, name: string) | Failed(index: nat, error: ItemError)

  function Value(s: Setting): Option<int> {
    if s.Given? then Some(s.value) else None
  }

  function ProposalOf(c: Cluster, item: Item): Proposal {
    Proposal(if item.template.Some? then Some(item.template.value.name) else None, "", ItemMode(c, item),
             None, None, item.storage, Value(item.timeout), Value(item.idleTimeout))
  }

  // What is wrong with the item itself.
  function Fault(item: Item): Option<ItemError> {
    if item.name == "" then Some(NameRequired)
    else if item.template.None? || item.template.value.name == "" then Some(TemplateRequired)
    else if item.timeout.Malformed? then Some(InvalidTimeout)
    else if item.idleTimeout.Malformed? then Some(InvalidIdleTimeout)
    else None
  }

  // What the item meets given the usage it is checked against and the objects already there.
  function Judge(c: Cluster, objects: seq<SandboxObject>, i: nat, item: Item, p: Policy, u: Usage): ItemResult {
    if Fault(item).Some? then Failed(i, Fault(item).value)
    else if !IsEmpty(p) && Violations(p, u, ProposalOf(c, item)) != [] then
      Failed(i, PolicyViolation(Violations(p, u, ProposalOf(c, item))))
    else if i in c.refusedByServer || Exists(objects, NamespaceOf(c, item), item.name) then Failed(i, CreateFailed)
    else Created(i, item.name)
  }

  function Place(c: Cluster, user: string, item: Item): SandboxObject {
    NewSandbox(NamespaceOf(c, item), item.name, user, ItemMode(c, item))
  }

  // The sandboxes and the answers so far.
  datatype Progress = Progress(objects: seq<SandboxObject>, results: seq<ItemResult>)

  function Record(c: Cluster, user: string, s: Progress, item: Item, r: ItemResult): Progress {
    Progress(if r.Created? then s.objects + [Place(c, user, item)] else s.objects, s.results + [r])
  }

  function PolicyFor(c: Cluster, item: Item): Policy {
    var p := Governing(c, NamespaceOf(c, item));
    if p.Some? then p.value else NO_POLICY
  }

  function UsageFor(c: Cluster, objects: seq<SandboxObject>, user: string, item: Item): Usage {
    if Governing(c, NamespaceOf(c, item)).Some? then UsageIn(objects, NamespaceOf(c, item), user) else Usage(0, 0, 0)
  }

  // The first k items, each checked against the usage from before the batch.
  function Batch(c: Cluster, before: seq<SandboxObject>, user: string, items: seq<Item>, k: nat): Progress
    requires k <= |items|
  {
    if k == 0 then Progress(before, [])
    else
      var s, item := Batch(c, before, user, items, k - 1), items[k - 1];
      Record(c, user, s, item, Judge(c, s.objects, k - 1, item, PolicyFor(c, item), UsageFor(c, before, user, item)))
  }

  // The first k items created one request after another, each checked against the usage it finds.
  function OneByOne(c: Cluster, before: seq<SandboxObject>, user: string, items: seq<Item>, k: nat): Progress
    requires k <= |items|
  {
    if k == 0 then Progress(before, [])
    else
      var s, item := OneByOne(c, before, user, items, k - 1), items[k - 1];
      Record(c, user, s, item, Judge(c, s.objects, k - 1, item, PolicyFor(c, item), UsageFor(c, s.objects, user, item)))
  }

  /******* The gate *******/

  function IndicesOf(c: Cluster, items: seq<Item>, ns: string, k: nat): (r: seq<nat>)
    requires k <= |items|
    ensures forall j :: 0 <= j < |r| ==> r[j] < k
  {
    if k == 0 then []
    else if NamespaceOf(c, items[k - 1]) == ns then IndicesOf(c, items, ns, k - 1) + [k - 1]
    else IndicesOf(c, items, ns, k - 1)
  }

  // Created in ns by the first k items at most: so many, and so many of them agents.
  function Asked(c: Cluster, items: seq<Item>, ns: string, k: nat): nat
    requires k <= |items|
  {
    |IndicesOf(c, items, ns, k)|
  }

  function AgentsAsked(c: Cluster, items: seq<Item>, ns: string, k: nat): nat
    requires k <= |items|
  {
    if k == 0 then 0
    else AgentsAsked(c, items, ns, k - 1)
         + if NamespaceOf(c, items[k - 1]) == ns && ItemMode(c, items[k - 1]) == AGENT_MODE then 1 else 0
  }

  predicate Fits(c: Cluster, before: seq<SandboxObject>, user: string, items: seq<Item>, ns: string)
    requires Governing(c, ns).Some?
  {
    BulkFits(Governing(c, ns).value, UsageIn(before, ns, user),
             Asked(c, items, ns, |items|), AgentsAsked(c, items, ns, |items|))
  }

  // A namespace the batch creates in, under a policy.
  predicate Gated(c: Cluster, items: seq<Item>, ns: string) {
    Governing(c, ns).Some? && Asked(c, items, ns, |items|) > 0
  }

  ghost predicate GateOpens(c: Cluster, before: seq<SandboxObject>, user: string, items: seq<Item>) {
    forall ns :: Gated(c, items, ns) ==> ns !in c.unlisted && Fits(c, before, user, items, ns)
  }

  /******* The handler *******/

  // A refusal names a namespace that stands in the way, and why.
  ghost predicate Refuses(c: Cluster, before: seq<SandboxObject>, user: string, items: seq<Item>, reply: Reply) {
    match reply
    case ServerError(ns) => Gated(c, items, ns) && ns in c.unlisted
    case Conflict(ns, violations) =>
      && Gated(c, items, ns) && violations != [] && !Fits(c, before, user, items, ns)
      && BulkViolations(Governing(c, ns).value, UsageIn(before, ns, user), Asked(c, items, ns, |items|),
                        AgentsAsked(c, items, ns, |items|), violations)
    case _ => false
  }

  datatype Reply =
    | BadRequest
    | ServerError(namespace: string)
    | Conflict(namespace: string, violations: seq<Violation>)
    | Answer(results: seq<ItemResult>)

  class Server {
    const cluster: Cluster
    var objects: seq<SandboxObject>

    constructor (cluster: Cluster, objects: seq<SandboxObject>)
      ensures this.cluster == cluster && this.objects == objects
    {
      this.cluster, this.objects := cluster, objects;
    }

    method GroupByNamespace(items: seq<Item>) returns (groups: map<string, seq<nat>>)
      ensures forall ns :: ns in groups <==> Asked(cluster, items, ns, |items|) > 0
      ensures forall ns :: ns in groups ==> groups[ns] == IndicesOf(cluster, items, ns, |items|)
    {
      groups := map[];
      for i := 0 to |items|
        invariant forall ns :: ns in groups <==> Asked(cluster, items, ns, i) > 0
        invariant forall ns :: ns in groups ==> groups[ns] == IndicesOf(cluster, items, ns, i)
      {
        var ns := NamespaceOf(cluster, items[i]);
        groups := groups[ns := (if ns in groups then groups[ns] else []) + [i]];
      }
    }

    method CountAgents(items: seq<Item>, indices: seq<nat>, ns: string) returns (n: nat)
      requires indices == IndicesOf(cluster, items, ns, |items|)
      ensures n == AgentsAsked(cluster, items, ns, |items|)
    {
      n := 0;
      for j := 0 to |indices|
        invariant n == AgentsAmong(cluster, items, indices[..j])
      {
        if TemplateMode(cluster, items[indices[j]].template, ns) == AGENT_MODE {
          n := n + 1;
        }
        AgentsAmongStep(cluster, items, ns, j);
      }
      assert indices[..|indices|] == indices;
      AgentsAmongIndices(cluster, items, ns, |items|);
    }

    method CreateOne(user: string, i: nat, item: Item, p: Policy, u: Usage) returns (r: ItemResult)
      modifies this
      ensures r == Judge(cluster, old(objects), i, item, p, u)
      ensures objects == if r.Created? then old(objects) + [Place(cluster, user, item)] else old(objects)
    {
      if item.name == "" {
        return Failed(i, NameRequired);
      }
      if item.template.None? || item.template.value.name == "" {
        return Failed(i, TemplateRequired);
      }
      var namespace := NamespaceOf(cluster, item);
      var sandbox := NewSandbox(namespace, item.name, user, TemplateMode(cluster, item.template, namespace));
      if item.timeout.Malformed? {
        return Failed(i, InvalidTimeout);
      }
      if item.idleTimeout.Malformed? {
        return Failed(i, InvalidIdleTimeout);
      }
      if !IsEmpty(p) {
        var violations := Check(p, u, ProposalOf(cluster, item));
        if violations != [] {
          return Failed(i, PolicyViolation(violations));
        }
      }
      if i in cluster.refusedByServer || Exists(objects, namespace, item.name) {
        return Failed(i, CreateFailed);
      }
      objects := objects + [sandbox];
      return Created(i, item.name);
    }

    // Nothing is created until every namespace under a policy has room for its share.
    method OpenGate(user: string, items: seq<Item>)
        returns (refusal: Option<Reply>, policies: map<string, Policy>, usages: map<string, Usage>)
      ensures refusal.None? <==> GateOpens(cluster, objects, user, items)
      ensures refusal.Some? ==> Refuses(cluster, objects, user, items, refusal.value)
      ensures refusal.None? ==> policies.Keys == usages.Keys
      ensures refusal.None? ==> forall ns :: ns in policies <==> Gated(cluster, items, ns)
      ensures refusal.None? ==> forall ns :: ns in policies ==>
                Governing(cluster, ns) == Some(policies[ns]) && usages[ns] == UsageIn(objects, ns, user)
    {
      policies, usages := map[], map[];
      var groups := GroupByNamespace(items);
      var todo := groups.Keys;
      while todo != {}
        invariant todo <= groups.Keys
        invariant policies.Keys == usages.Keys
        invariant forall ns :: ns in policies <==> ns in groups && ns !in todo && Governing(cluster, ns).Some?
        invariant forall ns :: ns in policies ==>
                    Governing(cluster, ns) == Some(policies[ns]) && usages[ns] == UsageIn(objects, ns, user)
        invariant forall ns :: ns in policies ==> ns !in cluster.unlisted && Fits(cluster, objects, user, items, ns)
      {
        var ns :| ns in todo;
        todo := todo - {ns};
        var policy := Governing(cluster, ns);
        if policy.Some? {
          if ns in cluster.unlisted {
            return Some(ServerError(ns)), policies, usages;
          }
          var usage := CountUsage(InNamespace(objects, ns), user);
          var agentN := CountAgents(items, groups[ns], ns);
          var violations := CheckBulk(policy.value, usage, |groups[ns]|, agentN);
          if violations != [] {
            return Some(Conflict(ns, violations)), policies, usages;
          }
          policies, usages := policies[ns := policy.value], usages[ns := usage];
        }
      }
      refusal := None;
    }

    method HandleBulkCreate(user: string, items: seq<Item>) returns (reply: Reply)
      modifies this
      ensures reply.BadRequest? <==> items == []
      ensures reply.Answer? <==> items != [] && GateOpens(cluster, old(objects), user, items)
      ensures reply.Answer? ==> Progress(objects, reply.results) == Batch(cluster, old(objects), user, items, |items|)
      ensures !reply.Answer? ==> objects == old(objects)
      ensures !reply.Answer? && !reply.BadRequest? ==> Refuses(cluster, old(objects), user, items, reply)
    {
      if items == [] {
        return BadRequest;
      }
      var refusal, policies, usages := OpenGate(user, items);
      if refusal.Some? {
        return refusal.value;
      }
      var results: seq<ItemResult> := [];
      for i := 0 to |items|
        invariant Progress(objects, results) == Batch(cluster, old(objects), user, items, i)
      {
        var ns := NamespaceOf(cluster, items[i]);
        Touches(cluster, items, i, |items|);
        assert ns in policies <==> Governing(cluster, ns).Some?;
        var p := if ns in policies then policies[ns] else NO_POLICY;
        var u := if ns in usages then usages[ns] else Usage(0, 0, 0);
        var r := CreateOne(user, i, items[i], p, u);
        results := results + [r];
      }
      return Answer(results);
    }
  }

  function AgentsAmong(c: Cluster, items: seq<Item>, indices: seq<nat>): nat
    requires forall j :: 0 <= j < |indices| ==> indices[j] < |items|
  {
    if indices == [] then 0
    else AgentsAmong(c, items, indices[..|indices| - 1])
         + if ItemMode(c, items[indices[|indices| - 1]]) == AGENT_MODE then 1 else 0
  }

  lemma AgentsAmongStep(c: Cluster, items: seq<Item>, ns: string, j: nat)
    requires j < Asked(c, items, ns, |items|)
    ensures var indices := IndicesOf(c, items, ns, |items|);
            AgentsAmong(c, items, indices[..j + 1]) == AgentsAmong(c, items, indices[..j])
              + if TemplateMode(c, items[indices[j]].template, ns) == AGENT_MODE then 1 else 0
  {
    var indices := IndicesOf(c, items, ns, |items|);
    assert indices[..j + 1] == indices[..j] + [indices[j]];
    AgentsAmongSnoc(c, items, indices[..j], indices[j]);
    AgentsAmongNext(c, items, ns, |items|, j);
  }

  lemma AgentsAmongSnoc(c: Cluster, items: seq<Item>, indices: seq<nat>, i: nat)
    requires (forall j :: 0 <= j < |indices| ==> indices[j] < |items|) && i < |items|
    ensures AgentsAmong(c, items, indices + [i]) ==
              AgentsAmong(c, items, indices) + if ItemMode(c, items[i]) == AGENT_MODE then 1 else 0
  {
    assert (indices + [i])[..|indices|] == indices;
  }

  lemma {:induction false} AgentsAmongIndices(c: Cluster, items: seq<Item>, ns: string, k: nat)
    requires k <= |items|
    ensures AgentsAmong(c, items, IndicesOf(c, items, ns, k)) == AgentsAsked(c, items, ns, k)
  {
    if k > 0 {
      AgentsAmongIndices(c, items, ns, k - 1);
      var front := IndicesOf(c, items, ns, k - 1);
      if NamespaceOf(c, items[k - 1]) == ns {
        AgentsAmongSnoc(c, items, front, k - 1);
        assert IndicesOf(c, items, ns, k) == front + [k - 1];
      } else {
        assert IndicesOf(c, items, ns, k) == front;
      }
    }
  }

  // The items grouped under a namespace are the items of that namespace.
  lemma {:induction false} AgentsAmongNext(c: Cluster, items: seq<Item>, ns: string, k: nat, j: nat)
    requires k <= |items| && j < Asked(c, items, ns, k)
    ensures NamespaceOf(c, items[IndicesOf(c, items, ns, k)[j]]) == ns
  {
    if j < Asked(c, items, ns, k - 1) {
      AgentsAmongNext(c, items, ns, k - 1, j);
    }
  }

  // Item i is counted among the first k of its namespace.
  lemma {:induction false} Touches(c: Cluster, items: seq<Item>, i: nat, k: nat)
    requires i < k <= |items|
    ensures var ns := NamespaceOf(c, items[i]);
            && Asked(c, items, ns, i) + 1 <= Asked(c, items, ns, k)
            && AgentsAsked(c, items, ns, i) + (if ItemMode(c, items[i]) == AGENT_MODE then 1 else 0)
               <= AgentsAsked(c, items, ns, k)
    decreases k
  {
    if i < k - 1 {
      Touches(c, items, i, k - 1);
    }
  }

  /******* Past the gate *******/

  predicate AtMost(a: Usage, b: Usage) {
    a.total <= b.total && a.user <= b.user && a.agents <= b.agents
  }

  lemma UsageInSnoc(objects: seq<SandboxObject>, sb: SandboxObject, ns: string, user: string)
    ensures UsageIn(objects + [sb], ns, user) ==
              if sb.namespace == ns then Add(UsageIn(objects, ns, user), UsageOf(sb, user))
              else UsageIn(objects, ns, user)
  {
    assert (objects + [sb])[..|objects|] == objects;
    UsageSnoc(InNamespace(objects, ns), sb, user);
  }

  // One for an item of the namespace, and nothing for the others.
  function Share(c: Cluster, item: Item, ns: string): Usage {
    if NamespaceOf(c, item) != ns then Usage(0, 0, 0)
    else Usage(1, 1, if ItemMode(c, item) == AGENT_MODE then 1 else 0)
  }

  lemma RecordAddsShare(c: Cluster, user: string, s: Progress, item: Item, r: ItemResult, ns: string)
    ensures AtMost(UsageIn(Record(c, user, s, item, r).objects, ns, user),
                   Add(UsageIn(s.objects, ns, user), Share(c, item, ns)))
  {
    if r.Created? {
      PlaceAddsShare(c, user, s.objects, item, ns);
    }
  }

  lemma PlaceAddsShare(c: Cluster, user: string, objects: seq<SandboxObject>, item: Item, ns: string)
    ensures UsageIn(objects + [Place(c, user, item)], ns, user) == Add(UsageIn(objects, ns, user), Share(c, item, ns))
  {
    var sb := Place(c, user, item);
    UsageInSnoc(objects, sb, ns, user);
    NewSandboxCounts(NamespaceOf(c, item), item.name, user, ItemMode(c, item));
    AddNothing(UsageIn(objects, ns, user));
  }

  lemma NewSandboxCounts(ns: string, name: string, user: string, mode: string)
    ensures UsageOf(NewSandbox(ns, name, user, mode), user) == Usage(1, 1, if mode == AGENT_MODE then 1 else 0)
  {
  }

  lemma AddNothing(u: Usage)
    ensures Add(u, Usage(0, 0, 0)) == u
  {
  }

  // However the items fare, a namespace gains at most what was asked of it.
  lemma {:induction false} UsageGrowsByAsked(
      c: Cluster, before: seq<SandboxObject>, user: string, items: seq<Item>, ns: string, k: nat)
    requires k <= |items|
    ensures AtMost(UsageIn(Batch(c, before, user, items, k).objects, ns, user),
                   Add(UsageIn(before, ns, user),
                       Usage(Asked(c, items, ns, k), Asked(c, items, ns, k), AgentsAsked(c, items, ns, k))))
  {
    if k > 0 {
      UsageGrowsByAsked(c, before, user, items, ns, k - 1);
      var s, item := Batch(c, before, user, items, k - 1), items[k - 1];
      var r := Judge(c, s.objects, k - 1, item, PolicyFor(c, item), UsageFor(c, before, user, item));
      RecordAddsShare(c, user, s, item, r, ns);
    }
  }

  predicate CountRule(v: Violation) {
    v.NamespaceQuotaExceeded? || v.UserQuotaExceeded? || v.AgentQuotaExceeded?
  }

  // Where the counting rules allow one more, usage plays no part in what is found.
  lemma CountsDropOut(p: Policy, u: Usage, v: Usage, s: Proposal)
    requires CountsAllow(p, u, s.mode == AGENT_MODE) && CountsAllow(p, v, s.mode == AGENT_MODE)
    ensures Violations(p, u, s) == Violations(p, v, s)
  {
    assert NamespaceFull(p, u) == NamespaceFull(p, v) && UserFull(p, u) == UserFull(p, v);
    assert s.mode == AGENT_MODE && AgentsFull(p, u) <==> s.mode == AGENT_MODE && AgentsFull(p, v);
  }

  predicate NoCountRule(out: seq<Violation>) {
    forall v :: v in out ==> !CountRule(v)
  }

  lemma NoCountViolation(p: Policy, u: Usage, s: Proposal)
    requires CountsAllow(p, u, s.mode == AGENT_MODE)
    ensures NoCountRule(Violations(p, u, s))
  {
    ViolationsMean(p, u, s);
  }

  // Item i meets the same answer whether it is checked against the usage before the batch or the
  // usage its predecessors leave.
  lemma ItemSeesRoom(c: Cluster, before: seq<SandboxObject>, user: string, items: seq<Item>, i: nat)
    requires i < |items| && GateOpens(c, before, user, items) && Governing(c, NamespaceOf(c, items[i])).Some?
    ensures var s, item := Batch(c, before, user, items, i), items[i];
            && CountsAllow(PolicyFor(c, item), UsageFor(c, before, user, item), ItemMode(c, item) == AGENT_MODE)
            && CountsAllow(PolicyFor(c, item), UsageFor(c, s.objects, user, item), ItemMode(c, item) == AGENT_MODE)
  {
    var ns := NamespaceOf(c, items[i]);
    Touches(c, items, i, |items|);
    assert Gated(c, items, ns);
    UsageGrowsByAsked(c, before, user, items, ns, i);
  }

  // Where usage plays no part in what is found, it plays none in the answer.
  lemma JudgedAlike(c: Cluster, objects: seq<SandboxObject>, i: nat, item: Item, p: Policy, u: Usage, v: Usage)
    requires Violations(p, u, ProposalOf(c, item)) == Violations(p, v, ProposalOf(c, item))
    ensures Judge(c, objects, i, item, p, u) == Judge(c, objects, i, item, p, v)
  {
  }

  lemma ItemJudgedAlike(c: Cluster, before: seq<SandboxObject>, user: string, items: seq<Item>, i: nat)
    requires i < |items| && GateOpens(c, before, user, items)
    ensures var s, item := Batch(c, before, user, items, i), items[i];
            Judge(c, s.objects, i, item, PolicyFor(c, item), UsageFor(c, before, user, item)) ==
            Judge(c, s.objects, i, item, PolicyFor(c, item), UsageFor(c, s.objects, user, item))
  {
    var s, item := Batch(c, before, user, items, i), items[i];
    if Governing(c, NamespaceOf(c, item)).Some? {
      var p, u, v := PolicyFor(c, item), UsageFor(c, before, user, item), UsageFor(c, s.objects, user, item);
      ItemSeesRoom(c, before, user, items, i);
      CountsDropOut(p, u, v, ProposalOf(c, item));
      JudgedAlike(c, s.objects, i, item, p, u, v);
    }
  }

  // A batch past the gate does what its items would do one request after another.
  lemma {:induction false} BatchIsOneByOne(
      c: Cluster, before: seq<SandboxObject>, user: string, items: seq<Item>, k: nat)
    requires k <= |items| && GateOpens(c, before, user, items)
    ensures Batch(c, before, user, items, k) == OneByOne(c, before, user, items, k)
  {
    if k > 0 {
      BatchIsOneByOne(c, before, user, items, k - 1);
      ItemJudgedAlike(c, before, user, items, k - 1);
    }
  }

  predicate WithinCaps(p: Policy, before: Usage, after: Usage) {
    && (p.maxSandboxesTotal > 0 ==> after.total <= p.maxSandboxesTotal)
    && (p.maxSandboxesPerUser > 0 ==> after.user <= p.maxSandboxesPerUser)
    && (p.maxAgentSandboxes > 0 ==> after.agents <= p.maxAgentSandboxes || after.agents <= before.agents)
  }

  // A governed namespace the batch touches ends within every cap; the agent cap may have been
  // passed before, and then the batch holds no agent for it.
  lemma BatchStaysWithinCaps(c: Cluster, before: seq<SandboxObject>, user: string, items: seq<Item>, ns: string)
    requires GateOpens(c, before, user, items) && Gated(c, items, ns)
    ensures WithinCaps(Governing(c, ns).value, UsageIn(before, ns, user),
                       UsageIn(Batch(c, before, user, items, |items|).objects, ns, user))
  {
    UsageGrowsByAsked(c, before, user, items, ns, |items|);
  }

  // What an item needs, besides room.
  predicate Acceptable(c: Cluster, objects: seq<SandboxObject>, i: nat, item: Item) {
    && Fault(item).None?
    && Violations(PolicyFor(c, item), Usage(0, 0, 0), ProposalOf(c, item)) == []
    && i !in c.refusedByServer && !Exists(objects, NamespaceOf(c, item), item.name)
  }

  lemma {:induction false} ResultsStay(
      c: Cluster, before: seq<SandboxObject>, user: string, items: seq<Item>, i: nat, k: nat)
    requires i < k <= |items|
    ensures |Batch(c, before, user, items, k).results| == k
    ensures Batch(c, before, user, items, k).results[i] ==
              Judge(c, Batch(c, before, user, items, i).objects, i, items[i],
                    PolicyFor(c, items[i]), UsageFor(c, before, user, items[i]))
    decreases k
  {
    if i < k - 1 {
      ResultsStay(c, before, user, items, i, k - 1);
    } else if i > 0 {
      ResultsStay(c, before, user, items, i - 1, i);
    }
  }

  // Past the gate an item succeeds exactly when it is acceptable, whatever its siblings do short
  // of taking its name; and no counting rule is ever among its errors.
  lemma ItemsAreIndependent(c: Cluster, before: seq<SandboxObject>, user: string, items: seq<Item>, i: nat)
    requires i < |items| && GateOpens(c, before, user, items)
    ensures var r := Batch(c, before, user, items, |items|).results;
            && |r| == |items| && r[i].index == i
            && (r[i].Created? <==> Acceptable(c, Batch(c, before, user, items, i).objects, i, items[i]))
            && (r[i].Failed? && r[i].error.PolicyViolation? ==> NoCountRule(r[i].error.violations))
  {
    ResultsStay(c, before, user, items, i, |items|);
    var p, s := PolicyFor(c, items[i]), ProposalOf(c, items[i]);
    if Governing(c, NamespaceOf(c, items[i])).Some? {
      ItemSeesRoom(c, before, user, items, i);
      CountsDropOut(p, UsageFor(c, before, user, items[i]), Usage(0, 0, 0), s);
      NoCountViolation(p, UsageFor(c, before, user, items[i]), s);
    }
  }

  /******* What is there afterwards *******/

  predicate UniqueNames(objects: seq<SandboxObject>) {
    forall i, j :: 0 <= i < j < |objects| ==>
      (objects[i].namespace, objects[i].name) != (objects[j].namespace, objects[j].name)
  }

  // Item i says it was created, and its sandbox is there: its own name in its namespace, owned by
  // the caller, in its template's mode.
  predicate Backed(c: Cluster, user: string, item: Item, i: nat, s: Progress)
    requires i < |s.results|
  {
    s.results[i].Created? ==> Place(c, user, item) in s.objects && s.results[i].name == item.name
  }

  predicate Accounts(c: Cluster, before: seq<SandboxObject>, user: string, items: seq<Item>, s: Progress)
    requires |s.results| <= |items|
  {
    && before <= s.objects && UniqueNames(s.objects)
    && |s.objects| == |before| + |CreatedIn(s.results)|
    && forall i :: 0 <= i < |s.results| ==> Backed(c, user, items[i], i, s)
  }

  lemma RecordKeepsAccounts(
      c: Cluster, before: seq<SandboxObject>, user: string, items: seq<Item>, s: Progress, r: ItemResult)
    requires |s.results| < |items| && Accounts(c, before, user, items, s)
    requires var item := items[|s.results|];
             r.Created? ==> !Exists(s.objects, NamespaceOf(c, item), item.name) && r.name == item.name
    ensures |Record(c, user, s, items[|s.results|], r).results| == |s.results| + 1
    ensures Accounts(c, before, user, items, Record(c, user, s, items[|s.results|], r))
  {
    var item := items[|s.results|];
    var t := Record(c, user, s, item, r);
    RecordAccounts(c, user, s, item, r);
    forall i | 0 <= i < |t.results| ensures Backed(c, user, items[i], i, t) {
      if i < |s.results| {
        assert Backed(c, user, items[i], i, s);
        assert t.results[i] == s.results[i];
      }
    }
  }

  lemma CreatedIsFree(c: Cluster, objects: seq<SandboxObject>, i: nat, item: Item, p: Policy, u: Usage)
    ensures var r := Judge(c, objects, i, item, p, u);
            r.Created? ==> !Exists(objects, NamespaceOf(c, item), item.name) && r.name == item.name
  {
  }

  // A batch keeps what was there, gives no name out twice, adds one sandbox for each item that
  // reports success and none for the others.
  lemma {:induction false} BatchAccountsForResults(
      c: Cluster, before: seq<SandboxObject>, user: string, items: seq<Item>, k: nat)
    requires k <= |items| && UniqueNames(before)
    ensures var s := Batch(c, before, user, items, k);
            |s.results| == k && Accounts(c, before, user, items, s)
  {
    if k > 0 {
      BatchAccountsForResults(c, before, user, items, k - 1);
      var s, item := Batch(c, before, user, items, k - 1), items[k - 1];
      var r := Judge(c, s.objects, k - 1, item, PolicyFor(c, item), UsageFor(c, before, user, item));
      CreatedIsFree(c, s.objects, k - 1, item, PolicyFor(c, item), UsageFor(c, before, user, item));
      RecordKeepsAccounts(c, before, user, items, s, r);
    }
  }

  function CreatedIn(results: seq<ItemResult>): seq<ItemResult> {
    if results == [] then []
    else
      var front, last := CreatedIn(results[..|results| - 1]), results[|results| - 1];
      if last.Created? then front + [last] else front
  }

  lemma RecordAccounts(c: Cluster, user: string, s: Progress, item: Item, r: ItemResult)
    requires UniqueNames(s.objects)
    requires r.Created? ==> !Exists(s.objects, NamespaceOf(c, item), item.name) && r.name == item.name
    ensures var t := Record(c, user, s, item, r);
            && s.objects <= t.objects && UniqueNames(t.objects) && t.results == s.results + [r]
            && |t.objects| - |s.objects| == |CreatedIn(t.results)| - |CreatedIn(s.results)|
            && Backed(c, user, item, |s.results|, t)
  {
    assert (s.results + [r])[..|s.results|] == s.results;
    if r.Created? {
      var sb := Place(c, user, item);
      assert (s.objects + [sb])[|s.objects|] == sb;
      forall i | 0 <= i < |s.objects| ensures (s.objects[i].namespace, s.objects[i].name) != (sb.namespace, sb.name) {
        assert s.objects[i] in s.objects;
      }
    }
  }

  /******* Other requests in between *******/

  // The same batch while others create sandboxes too: others[i] between item i and what came
  // before it. The gate and the items still see the usage from before the batch.
  function BatchAmid(c: Cluster, before: seq<SandboxObject>, user: string, items: seq<Item>,
                     others: seq<seq<SandboxObject>>, k: nat): Progress
    requires k <= |items| <= |others|
    decreases k
  {
    if k == 0 then Progress(before, [])
    else
      var s, item := BatchAmid(c, before, user, items, others, k - 1), items[k - 1];
      var now := s.(objects := s.objects + others[k - 1]);
      Record(c, user, now, item,
             Judge(c, now.objects, k - 1, item, PolicyFor(c, item), UsageFor(c, before, user, item)))
  }

  function ByOthers(others: seq<seq<SandboxObject>>, ns: string, user: string, k: nat): Usage
    requires k <= |others|
    decreases k
  {
    if k == 0 then Usage(0, 0, 0) else Add(ByOthers(others, ns, user, k - 1), UsageIn(others[k - 1], ns, user))
  }

  lemma {:induction false} InNamespaceJoins(a: seq<SandboxObject>, b: seq<SandboxObject>, ns: string)
    ensures InNamespace(a + b, ns) == InNamespace(a, ns) + InNamespace(b, ns)
    decreases |b|
  {
    if b == [] {
      assert a + b == a;
    } else {
      var front := b[..|b| - 1];
      assert (a + b)[..|a + b| - 1] == a + front;
      InNamespaceJoins(a, front, ns);
    }
  }

  lemma AddAssociates(x: Usage, y: Usage, z: Usage)
    ensures Add(Add(x, y), z) == Add(x, Add(y, z))
  {
  }

  lemma {:induction false} UsageOfAllJoins(a: seq<SandboxObject>, b: seq<SandboxObject>, user: string)
    ensures UsageOfAll(a + b, user) == Add(UsageOfAll(a, user), UsageOfAll(b, user))
    decreases |b|
  {
    if b == [] {
      assert a + b == a;
      AddNothing(UsageOfAll(a, user));
    } else {
      var front, sb := b[..|b| - 1], b[|b| - 1];
      assert a + b == a + front + [sb] && b == front + [sb];
      UsageOfAllJoins(a, front, user);
      UsageSnoc(a + front, sb, user);
      UsageSnoc(front, sb, user);
      AddAssociates(UsageOfAll(a, user), UsageOfAll(front, user), UsageOf(sb, user));
    }
  }

  lemma UsageInJoins(a: seq<SandboxObject>, b: seq<SandboxObject>, ns: string, user: string)
    ensures UsageIn(a + b, ns, user) == Add(UsageIn(a, ns, user), UsageIn(b, ns, user))
  {
    InNamespaceJoins(a, b, ns);
    UsageOfAllJoins(InNamespace(a, ns), InNamespace(b, ns), user);
  }

  predicate AllCreated(results: seq<ItemResult>) {
    forall i :: 0 <= i < |results| ==> results[i].Created?
  }

  lemma RecordUsage(c: Cluster, user: string, s: Progress, item: Item, r: ItemResult, ns: string)
    requires r.Created?
    ensures UsageIn(Record(c, user, s, item, r).objects, ns, user) ==
              Add(UsageIn(s.objects, ns, user), Share(c, item, ns))
  {
    PlaceAddsShare(c, user, s.objects, item, ns);
  }

  function AskedUsage(c: Cluster, items: seq<Item>, ns: string, k: nat): Usage
    requires k <= |items|
  {
    Usage(Asked(c, items, ns, k), Asked(c, items, ns, k), AgentsAsked(c, items, ns, k))
  }

  lemma AskedNext(c: Cluster, items: seq<Item>, ns: string, k: nat)
    requires 0 < k <= |items|
    ensures AskedUsage(c, items, ns, k) == Add(AskedUsage(c, items, ns, k - 1), Share(c, items[k - 1], ns))
  {
  }

  lemma AddRegroups(a: Usage, b: Usage, asked: Usage, x: Usage, y: Usage)
    ensures Add(Add(Add(Add(a, b), asked), x), y) == Add(Add(a, Add(b, x)), Add(asked, y))
  {
  }

  // A namespace gains exactly what the batch asked and what the others created, if all items fare well.
  lemma {:induction false} UsageAmid(c: Cluster, before: seq<SandboxObject>, user: string, items: seq<Item>,
                                     others: seq<seq<SandboxObject>>, ns: string, k: nat)
    requires k <= |items| <= |others| && AllCreated(BatchAmid(c, before, user, items, others, k).results)
    ensures UsageIn(BatchAmid(c, before, user, items, others, k).objects, ns, user) ==
              Add(Add(UsageIn(before, ns, user), ByOthers(others, ns, user, k)), AskedUsage(c, items, ns, k))
    decreases k
  {
    if k > 0 {
      var s, item := BatchAmid(c, before, user, items, others, k - 1), items[k - 1];
      var now := s.(objects := s.objects + others[k - 1]);
      var r := Judge(c, now.objects, k - 1, item, PolicyFor(c, item), UsageFor(c, before, user, item));
      assert (s.results + [r])[|s.results|] == r && (s.results + [r])[..|s.results|] == s.results;
      assert forall i :: 0 <= i < |s.results| ==> s.results[i] == (s.results + [r])[i];
      UsageAmid(c, before, user, items, others, ns, k - 1);
      UsageInJoins(s.objects, others[k - 1], ns, user);
      RecordUsage(c, user, now, item, r, ns);
      AskedNext(c, items, ns, k);
      AddRegroups(UsageIn(before, ns, user), ByOthers(others, ns, user, k - 1), AskedUsage(c, items, ns, k - 1),
                  UsageIn(others[k - 1], ns, user), Share(c, item, ns));
    }
  }

  // Amid other requests the gate bounds nothing by itself: a batch whose items are all created ends
  // within the caps exactly when it would have passed the gate on a usage that has the others'
  // sandboxes in it.
  lemma CapsAmidOthers(c: Cluster, before: seq<SandboxObject>, user: string, items: seq<Item>,
                       others: seq<seq<SandboxObject>>, ns: string)
    requires Gated(c, items, ns) && |items| <= |others|
    requires AllCreated(BatchAmid(c, before, user, items, others, |items|).results)
    ensures var p, n := Governing(c, ns).value, |items|;
            var after := UsageIn(BatchAmid(c, before, user, items, others, n).objects, ns, user);
            var seen := Add(UsageIn(before, ns, user), ByOthers(others, ns, user, n));
            && (p.maxSandboxesTotal > 0 ==> after.total <= p.maxSandboxesTotal)
            && (p.maxSandboxesPerUser > 0 ==> after.user <= p.maxSandboxesPerUser)
            && (p.maxAgentSandboxes > 0 && AgentsAsked(c, items, ns, n) > 0 ==> after.agents <= p.maxAgentSandboxes)
            <==> BulkFits(p, seen, Asked(c, items, ns, n), AgentsAsked(c, items, ns, n))
  {
    UsageAmid(c, before, user, items, others, ns, |items|);
  }

  // With nobody else about it is the batch itself.
  lemma {:induction false} AloneIsBatch(c: Cluster, before: seq<SandboxObject>, user: string, items: seq<Item>,
                                        others: seq<seq<SandboxObject>>, k: nat)
    requires k <= |items| <= |others| && forall i :: 0 <= i < |others| ==> others[i] == []
    ensures BatchAmid(c, before, user, items, others, k) == Batch(c, before, user, items, k)
    decreases k
  {
    if k > 0 {
      AloneIsBatch(c, before, user, items, others, k - 1);
      var s := Batch(c, before, user, items, k - 1);
      assert s.objects + others[k - 1] == s.objects;
    }
  }
}
