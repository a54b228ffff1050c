/** Governance policies: resolution, usage counting, single and bulk admission. */
module Governance {
  import opened Wrappers
  import opened Api

  // A cap on a quantity or a duration, as parsed: not set, set to what does not parse, or a limit.
  datatype Cap = NoCap | Unreadable | AtMost(limit: int)

  // Zero, NoCap and empty mean no limit.
  datatype Policy = Policy(
    maxSandboxesPerUser: int,
    maxSandboxesTotal: int,
    maxCPU: Cap,
    maxMemory: Cap,
    maxStorage: Cap,
    maxTimeout: Cap,
    maxIdleTimeout: Cap,
    allowedTemplates: seq<string>,
    approvedRegistries: seq<string>,
    maxAgentSandboxes: int,
    allowedAgentImages: seq<string>,
    maxConcurrentInvokes: int,
    description: string
  )

  const NO_POLICY := Policy(0, 0, NoCap, NoCap, NoCap, NoCap, NoCap, [], [], 0, [], 0, "")

  predicate IsEmpty(p: Policy) {
    p.(description := "") == NO_POLICY
  }

  function OverNumber(parent: int, child: int): int {
    if child != 0 then child else parent
  }

  function OverLimit(parent: Cap, child: Cap): Cap {
    if child.NoCap? then parent else child
  }

  function OverNames(parent: seq<string>, child: seq<string>): seq<string> {
    if |child| > 0 then child else parent
  }

  // The three agent fields stay the parent's.
  function MergePolicies(parent: Policy, child: Policy): Policy {
    parent.(
      maxSandboxesPerUser := OverNumber(parent.maxSandboxesPerUser, child.maxSandboxesPerUser),
      maxSandboxesTotal := OverNumber(parent.maxSandboxesTotal, child.maxSandboxesTotal),
      maxCPU := OverLimit(parent.maxCPU, child.maxCPU),
      maxMemory := OverLimit(parent.maxMemory, child.maxMemory),
      maxStorage := OverLimit(parent.maxStorage, child.maxStorage),
      maxTimeout := OverLimit(parent.maxTimeout, child.maxTimeout),
      maxIdleTimeout := OverLimit(parent.maxIdleTimeout, child.maxIdleTimeout),
      allowedTemplates := OverNames(parent.allowedTemplates, child.allowedTemplates),
      approvedRegistries := OverNames(parent.approvedRegistries, child.approvedRegistries),
      description := if child.description != "" then child.description else parent.description)
  }

  const CLUSTER_POLICY_KEY := "__cluster__"

  type Policies = map<string, Policy>

  function KeyOf(scope: string): string {
    if scope == "" then CLUSTER_POLICY_KEY else scope
  }

  function GetPolicy(policies: Policies, scope: string): Policy {
    if KeyOf(scope) in policies then policies[KeyOf(scope)] else NO_POLICY
  }

  function Resolve(policies: Policies, namespace: string): Policy {
    if namespace == "" then GetPolicy(policies, "")
    else MergePolicies(GetPolicy(policies, ""), GetPolicy(policies, namespace))
  }

  // A namespace's value wins wherever the namespace sets one.
  predicate OverridesFieldByField(r: Policy, parent: Policy, child: Policy) {
    && r.maxSandboxesPerUser ==
         (if child.maxSandboxesPerUser != 0 then child.maxSandboxesPerUser else parent.maxSandboxesPerUser)
    && r.maxSandboxesTotal ==
         (if child.maxSandboxesTotal != 0 then child.maxSandboxesTotal else parent.maxSandboxesTotal)
    && r.maxCPU == (if child.maxCPU != NoCap then child.maxCPU else parent.maxCPU)
    && r.maxMemory == (if child.maxMemory != NoCap then child.maxMemory else parent.maxMemory)
    && r.maxStorage == (if child.maxStorage != NoCap then child.maxStorage else parent.maxStorage)
    && r.maxTimeout == (if child.maxTimeout != NoCap then child.maxTimeout else parent.maxTimeout)
    && r.maxIdleTimeout == (if child.maxIdleTimeout != NoCap then child.maxIdleTimeout else parent.maxIdleTimeout)
    && r.allowedTemplates == (if child.allowedTemplates != [] then child.allowedTemplates else parent.allowedTemplates)
    && r.approvedRegistries ==
         (if child.approvedRegistries != [] then child.approvedRegistries else parent.approvedRegistries)
    && r.description == (if child.description != "" then child.description else parent.description)
    && r.maxAgentSandboxes ==
         (if child.maxAgentSandboxes != 0 then child.maxAgentSandboxes else parent.maxAgentSandboxes)
    && r.allowedAgentImages ==
         (if child.allowedAgentImages != [] then child.allowedAgentImages else parent.allowedAgentImages)
    && r.maxConcurrentInvokes ==
         (if child.maxConcurrentInvokes != 0 then child.maxConcurrentInvokes else parent.maxConcurrentInvokes)
  }

  // The documented field-by-field override holds exactly when the namespace sets no agent field of
  // its own that differs from the cluster's.
  lemma NamespaceAgentFieldsAreIgnored(policies: Policies, namespace: string)
    requires namespace != ""
    ensures var parent, child := GetPolicy(policies, ""), GetPolicy(policies, namespace);
            OverridesFieldByField(Resolve(policies, namespace), parent, child) <==>
              && child.maxAgentSandboxes in {0, parent.maxAgentSandboxes}
              && child.allowedAgentImages in {[], parent.allowedAgentImages}
              && child.maxConcurrentInvokes in {0, parent.maxConcurrentInvokes}
  {
    var parent, child := GetPolicy(policies, ""), GetPolicy(policies, namespace);
    AgentFieldsDecide(MergePolicies(parent, child), parent, child);
  }

  lemma AgentFieldsDecide(r: Policy, parent: Policy, child: Policy)
    requires r == MergePolicies(parent, child)
    ensures OverridesFieldByField(r, parent, child) <==>
              && (child.maxAgentSandboxes == 0 || child.maxAgentSandboxes == parent.maxAgentSandboxes)
              && (child.allowedAgentImages == [] || child.allowedAgentImages == parent.allowedAgentImages)
              && (child.maxConcurrentInvokes == 0 || child.maxConcurrentInvokes == parent.maxConcurrentInvokes)
  {
  }

  // Whatever the namespace sets, the agent fields are the cluster's, and every other field is its
  // own where it sets one.
  lemma ResolvedPolicyIsMixed(policies: Policies, namespace: string)
    requires namespace != ""
    ensures var parent := if "__cluster__" in policies then policies["__cluster__"] else NO_POLICY;
            var child := if namespace in policies then policies[namespace] else NO_POLICY;
            var r := Resolve(policies, namespace);
            && r.maxAgentSandboxes == parent.maxAgentSandboxes
            && r.allowedAgentImages == parent.allowedAgentImages
            && r.maxConcurrentInvokes == parent.maxConcurrentInvokes
            && OverridesFieldByField(r, parent, child.(maxAgentSandboxes := 0, allowedAgentImages := [],
                                                       maxConcurrentInvokes := 0))
  {
  }

  // With no namespace the cluster's policy is all there is.
  lemma ResolvedClusterPolicy(policies: Policies)
    ensures Resolve(policies, "") == if "__cluster__" in policies then policies["__cluster__"] else NO_POLICY
  {
  }

  // A namespace's cap replaces the cluster's even where it does not parse, and then enforces
  // nothing: all that the cluster refuses stays refused exactly when the namespace sets no cap of
  // its own, or one as tight, or the cluster had none to enforce.
  lemma NamespaceCapCanLiftCluster(parent: Cap, child: Cap)
    ensures (forall got :: ExceedsQuantity(got, parent) ==> ExceedsQuantity(got, OverLimit(parent, child))) <==>
              || child.NoCap? || !parent.AtMost?
              || (child.AtMost? && child.limit <= parent.limit)
  {
    if parent.AtMost? && !child.NoCap? && !(child.AtMost? && child.limit <= parent.limit) {
      assert ExceedsQuantity(Some(parent.limit + 1), parent);
    }
  }

  /******* Usage *******/

  datatype SandboxObject = SandboxObject(
    namespace: string,
    name: string,
    owner: Option<string>,
    mode: string,
    phase: Phase
  )

  datatype Usage = Usage(total: nat, user: nat, agents: nat)

  function UsageOf(sb: SandboxObject, user: string): Usage {
    if sb.phase.Deleting? || sb.phase.Error? then Usage(0, 0, 0)
    else Usage(1, if sb.owner == Some(user) then 1 else 0, if sb.mode == AGENT_MODE then 1 else 0)
  }

  function Add(a: Usage, b: Usage): Usage {
    Usage(a.total + b.total, a.user + b.user, a.agents + b.agents)
  }

  function UsageOfAll(list: seq<SandboxObject>, user: string): Usage {
    if list == [] then Usage(0, 0, 0)
    else Add(UsageOfAll(list[..|list| - 1], user), UsageOf(list[|list| - 1], user))
  }

  method CountUsage(list: seq<SandboxObject>, user: string) returns (u: Usage)
    ensures u == UsageOfAll(list, user)
  {
    u := Usage(0, 0, 0);
    for i := 0 to |list|
      invariant u == UsageOfAll(list[..i], user)
    {
      var sb := list[i];
      assert list[..i + 1] == list[..i] + [sb];
      UsageSnoc(list[..i], sb, user);
      ghost var next := Add(u, UsageOf(sb, user));
      assert UsageOfAll(list[..i + 1], user) == next;
      if !sb.phase.Deleting? && !sb.phase.Error? {
        u := u.(total := u.total + 1);
        if sb.owner == Some(user) {
          u := u.(user := u.user + 1);
        }
        if sb.mode == AGENT_MODE {
          u := u.(agents := u.agents + 1);
        }
      }
    }
    assert list[..|list|] == list;
  }

  lemma UsageSnoc(list: seq<SandboxObject>, sb: SandboxObject, user: string)
    ensures UsageOfAll(list + [sb], user) == Add(UsageOfAll(list, user), UsageOf(sb, user))
  {
    assert (list + [sb])[..|list|] == list;
  }

  /******* Rules *******/

  datatype Violation =
    | TemplateNotAllowed | ImageRegistryNotApproved
    | NamespaceQuotaExceeded | UserQuotaExceeded | AgentQuotaExceeded
    | AgentImageNotApproved
    | CPULimitExceeded | MemoryLimitExceeded | StorageLimitExceeded | TimeoutExceeded | IdleTimeoutExceeded

  // The parts of a proposed sandbox the rules look at. No override is None, or an empty image.
  datatype Proposal = Proposal(
    template: Option<string>,
    image: string,
    mode: string,
    cpu: Option<int>,
    memory: Option<int>,
    storage: Option<int>,
    timeout: Option<int>,
    idleTimeout: Option<int>
  )

  predicate HasRegistryPrefix(image: string, registries: seq<string>) {
    exists prefix | prefix in registries :: prefix != "" && prefix <= image
  }

  // A cap that does not parse fails open.
  predicate ExceedsQuantity(got: Option<int>, cap: Cap) {
    cap.AtMost? && got.Some? && got.value > cap.limit
  }

  // Zero asks for no limit at all, which exceeds every cap.
  predicate ExceedsDuration(got: Option<int>, cap: Cap) {
    cap.AtMost? && got.Some? && (got.value == 0 || got.value > cap.limit)
  }

  function Flag(out: seq<Violation>, condition: bool, v: Violation): seq<Violation> {
    if condition then out + [v] else out
  }

  predicate NamespaceFull(p: Policy, u: Usage) {
    p.maxSandboxesTotal > 0 && u.total >= p.maxSandboxesTotal
  }

  predicate UserFull(p: Policy, u: Usage) {
    p.maxSandboxesPerUser > 0 && u.user >= p.maxSandboxesPerUser
  }

  predicate AgentsFull(p: Policy, u: Usage) {
    p.maxAgentSandboxes > 0 && u.agents >= p.maxAgentSandboxes
  }

  // No rule that counts sandboxes refuses one more.
  predicate CountsAllow(p: Policy, u: Usage, agent: bool) {
    !NamespaceFull(p, u) && !UserFull(p, u) && !(agent && AgentsFull(p, u))
  }

  predicate TemplateRefused(p: Policy, s: Proposal) {
    |p.allowedTemplates| > 0 && s.template.Some? && s.template.value !in p.allowedTemplates
  }

  predicate RegistryRefused(p: Policy, s: Proposal) {
    |p.approvedRegistries| > 0 && s.image != "" && !HasRegistryPrefix(s.image, p.approvedRegistries)
  }

  predicate AgentImageRefused(p: Policy, s: Proposal) {
    s.mode == AGENT_MODE && |p.allowedAgentImages| > 0 && s.image != ""
    && !HasRegistryPrefix(s.image, p.allowedAgentImages)
  }

  // Every violation, in the order of the rules.
  function ResourceViolations(out: seq<Violation>, p: Policy, s: Proposal): seq<Violation> {
    Flag(Flag(Flag(Flag(Flag(out,
      ExceedsQuantity(s.cpu, p.maxCPU), CPULimitExceeded),
      ExceedsQuantity(s.memory, p.maxMemory), MemoryLimitExceeded),
      ExceedsQuantity(s.storage, p.maxStorage), StorageLimitExceeded),
      ExceedsDuration(s.timeout, p.maxTimeout), TimeoutExceeded),
      ExceedsDuration(s.idleTimeout, p.maxIdleTimeout), IdleTimeoutExceeded)
  }

  function Violations(p: Policy, u: Usage, s: Proposal): seq<Violation> {
    ResourceViolations(Flag(Flag(Flag(Flag(Flag(Flag([],
      TemplateRefused(p, s), TemplateNotAllowed),
      RegistryRefused(p, s), ImageRegistryNotApproved),
      NamespaceFull(p, u), NamespaceQuotaExceeded),
      UserFull(p, u), UserQuotaExceeded),
      s.mode == AGENT_MODE && AgentsFull(p, u), AgentQuotaExceeded),
      AgentImageRefused(p, s), AgentImageNotApproved), p, s)
  }

  predicate BulkFits(p: Policy, u: Usage, n: nat, agentN: nat) {
    && (p.maxSandboxesTotal > 0 ==> u.total + n <= p.maxSandboxesTotal)
    && (p.maxSandboxesPerUser > 0 ==> u.user + n <= p.maxSandboxesPerUser)
    && (p.maxAgentSandboxes > 0 && agentN > 0 ==> u.agents + agentN <= p.maxAgentSandboxes)
  }

  method CheckResourceLimits(p: Policy, s: Proposal) returns (out: seq<Violation>)
    ensures forall before :: ResourceViolations(before, p, s) == before + out
  {
    out := [];
    if ExceedsQuantity(s.cpu, p.maxCPU) { out := out + [CPULimitExceeded]; }
    if ExceedsQuantity(s.memory, p.maxMemory) { out := out + [MemoryLimitExceeded]; }
    if ExceedsQuantity(s.storage, p.maxStorage) { out := out + [StorageLimitExceeded]; }
    if ExceedsDuration(s.timeout, p.maxTimeout) { out := out + [TimeoutExceeded]; }
    if ExceedsDuration(s.idleTimeout, p.maxIdleTimeout) { out := out + [IdleTimeoutExceeded]; }
    assert out == ResourceViolations([], p, s);
    forall before ensures ResourceViolations(before, p, s) == before + out {
      ResourceAppends(before, p, s);
    }
  }

  lemma FlagAppends(before: seq<Violation>, out: seq<Violation>, condition: bool, v: Violation)
    ensures Flag(before + out, condition, v) == before + Flag(out, condition, v)
  {
    assert before + out + [v] == before + (out + [v]);
  }

  lemma ResourceAppends(before: seq<Violation>, p: Policy, s: Proposal)
    ensures ResourceViolations(before, p, s) == before + ResourceViolations([], p, s)
  {
    assert before == before + [];
    var c1, c2, c3 := ExceedsQuantity(s.cpu, p.maxCPU), ExceedsQuantity(s.memory, p.maxMemory),
                      ExceedsQuantity(s.storage, p.maxStorage);
    var o1 := Flag([], c1, CPULimitExceeded);
    var o2 := Flag(o1, c2, MemoryLimitExceeded);
    var o3 := Flag(o2, c3, StorageLimitExceeded);
    var o4 := Flag(o3, ExceedsDuration(s.timeout, p.maxTimeout), TimeoutExceeded);
    FlagAppends(before, [], c1, CPULimitExceeded);
    FlagAppends(before, o1, c2, MemoryLimitExceeded);
    FlagAppends(before, o2, c3, StorageLimitExceeded);
    FlagAppends(before, o3, ExceedsDuration(s.timeout, p.maxTimeout), TimeoutExceeded);
    FlagAppends(before, o4, ExceedsDuration(s.idleTimeout, p.maxIdleTimeout), IdleTimeoutExceeded);
  }

  method Check(p: Policy, u: Usage, s: Proposal) returns (out: seq<Violation>)
    ensures out == Violations(p, u, s)
  {
    out := [];
    if |p.allowedTemplates| > 0 && s.template.Some? {
      if s.template.value !in p.allowedTemplates { out := out + [TemplateNotAllowed]; }
    }
    if |p.approvedRegistries| > 0 && s.image != "" {
      if !HasRegistryPrefix(s.image, p.approvedRegistries) { out := out + [ImageRegistryNotApproved]; }
    }
    if p.maxSandboxesTotal > 0 && u.total >= p.maxSandboxesTotal { out := out + [NamespaceQuotaExceeded]; }
    if p.maxSandboxesPerUser > 0 && u.user >= p.maxSandboxesPerUser { out := out + [UserQuotaExceeded]; }
    if s.mode == AGENT_MODE && p.maxAgentSandboxes > 0 && u.agents >= p.maxAgentSandboxes {
      out := out + [AgentQuotaExceeded];
    }
    if s.mode == AGENT_MODE && |p.allowedAgentImages| > 0 && s.image != "" {
      if !HasRegistryPrefix(s.image, p.allowedAgentImages) { out := out + [AgentImageNotApproved]; }
    }
    var limits := CheckResourceLimits(p, s);
    out := out + limits;
  }

  predicate BulkViolations(p: Policy, u: Usage, n: nat, agentN: nat, out: seq<Violation>) {
    forall v :: v in out <==>
      match v
      case NamespaceQuotaExceeded => p.maxSandboxesTotal > 0 && u.total + n > p.maxSandboxesTotal
      case UserQuotaExceeded => p.maxSandboxesPerUser > 0 && u.user + n > p.maxSandboxesPerUser
      case AgentQuotaExceeded => p.maxAgentSandboxes > 0 && agentN > 0 && u.agents + agentN > p.maxAgentSandboxes
      case _ => false
  }

  method CheckBulk(p: Policy, u: Usage, n: nat, agentN: nat) returns (out: seq<Violation>)
    ensures out == [] <==> BulkFits(p, u, n, agentN)
    ensures BulkViolations(p, u, n, agentN, out)
  {
    out := [];
    if p.maxSandboxesTotal > 0 && u.total + n > p.maxSandboxesTotal { out := out + [NamespaceQuotaExceeded]; }
    if p.maxSandboxesPerUser > 0 && u.user + n > p.maxSandboxesPerUser { out := out + [UserQuotaExceeded]; }
    if p.maxAgentSandboxes > 0 && agentN > 0 && u.agents + agentN > p.maxAgentSandboxes {
      out := out + [AgentQuotaExceeded];
    }
  }

  lemma FlagMembers(out: seq<Violation>, condition: bool, v: Violation)
    ensures forall x :: x in Flag(out, condition, v) <==> x in out || (condition && x == v)
  {
  }

  predicate ResourceReason(x: Violation, p: Policy, s: Proposal) {
    match x
    case CPULimitExceeded => p.maxCPU.AtMost? && s.cpu.Some? && s.cpu.value > p.maxCPU.limit
    case MemoryLimitExceeded => p.maxMemory.AtMost? && s.memory.Some? && s.memory.value > p.maxMemory.limit
    case StorageLimitExceeded => p.maxStorage.AtMost? && s.storage.Some? && s.storage.value > p.maxStorage.limit
    case TimeoutExceeded =>
      p.maxTimeout.AtMost? && s.timeout.Some? && (s.timeout.value == 0 || s.timeout.value > p.maxTimeout.limit)
    case IdleTimeoutExceeded =>
      && p.maxIdleTimeout.AtMost? && s.idleTimeout.Some?
      && (s.idleTimeout.value == 0 || s.idleTimeout.value > p.maxIdleTimeout.limit)
    case _ => false
  }

  // When each rule refuses.
  predicate Reason(x: Violation, p: Policy, u: Usage, s: Proposal) {
    match x
    case TemplateNotAllowed =>
      p.allowedTemplates != [] && s.template.Some? && s.template.value !in p.allowedTemplates
    case ImageRegistryNotApproved =>
      p.approvedRegistries != [] && s.image != "" && !HasRegistryPrefix(s.image, p.approvedRegistries)
    case NamespaceQuotaExceeded => p.maxSandboxesTotal > 0 && u.total >= p.maxSandboxesTotal
    case UserQuotaExceeded => p.maxSandboxesPerUser > 0 && u.user >= p.maxSandboxesPerUser
    case AgentQuotaExceeded => s.mode == "agent" && p.maxAgentSandboxes > 0 && u.agents >= p.maxAgentSandboxes
    case AgentImageNotApproved =>
      && s.mode == "agent" && p.allowedAgentImages != [] && s.image != ""
      && !HasRegistryPrefix(s.image, p.allowedAgentImages)
    case _ => ResourceReason(x, p, s)
  }

  lemma ResourceMembers(out: seq<Violation>, p: Policy, s: Proposal)
    ensures forall x :: x in ResourceViolations(out, p, s) <==> x in out || ResourceReason(x, p, s)
  {
    var o1 := Flag(out, ExceedsQuantity(s.cpu, p.maxCPU), CPULimitExceeded);
    var o2 := Flag(o1, ExceedsQuantity(s.memory, p.maxMemory), MemoryLimitExceeded);
    var o3 := Flag(o2, ExceedsQuantity(s.storage, p.maxStorage), StorageLimitExceeded);
    var o4 := Flag(o3, ExceedsDuration(s.timeout, p.maxTimeout), TimeoutExceeded);
    FlagMembers(out, ExceedsQuantity(s.cpu, p.maxCPU), CPULimitExceeded);
    FlagMembers(o1, ExceedsQuantity(s.memory, p.maxMemory), MemoryLimitExceeded);
    FlagMembers(o2, ExceedsQuantity(s.storage, p.maxStorage), StorageLimitExceeded);
    FlagMembers(o3, ExceedsDuration(s.timeout, p.maxTimeout), TimeoutExceeded);
    FlagMembers(o4, ExceedsDuration(s.idleTimeout, p.maxIdleTimeout), IdleTimeoutExceeded);
  }

  // What is refused is refused for its reason, and nothing else is.
  lemma ViolationsMean(p: Policy, u: Usage, s: Proposal)
    ensures forall x :: x in Violations(p, u, s) <==> Reason(x, p, u, s)
    ensures Violations(p, u, s) == [] <==> forall x :: !Reason(x, p, u, s)
  {
    var o1 := Flag([], TemplateRefused(p, s), TemplateNotAllowed);
    var o2 := Flag(o1, RegistryRefused(p, s), ImageRegistryNotApproved);
    var o3 := Flag(o2, NamespaceFull(p, u), NamespaceQuotaExceeded);
    var o4 := Flag(o3, UserFull(p, u), UserQuotaExceeded);
    var o5 := Flag(o4, s.mode == AGENT_MODE && AgentsFull(p, u), AgentQuotaExceeded);
    var o6 := Flag(o5, AgentImageRefused(p, s), AgentImageNotApproved);
    FlagMembers([], TemplateRefused(p, s), TemplateNotAllowed);
    FlagMembers(o1, RegistryRefused(p, s), ImageRegistryNotApproved);
    FlagMembers(o2, NamespaceFull(p, u), NamespaceQuotaExceeded);
    FlagMembers(o3, UserFull(p, u), UserQuotaExceeded);
    FlagMembers(o4, s.mode == AGENT_MODE && AgentsFull(p, u), AgentQuotaExceeded);
    FlagMembers(o5, AgentImageRefused(p, s), AgentImageNotApproved);
    ResourceMembers(o6, p, s);
    var out := Violations(p, u, s);
    assert out != [] ==> out[0] in out;
  }

  // Every rule is met: allowlists, counts and value caps.
  predicate MeetsRules(p: Policy, u: Usage, s: Proposal) {
    && CountsAllow(p, u, s.mode == AGENT_MODE)
    && !TemplateRefused(p, s) && !RegistryRefused(p, s) && !AgentImageRefused(p, s)
    && !ExceedsQuantity(s.cpu, p.maxCPU) && !ExceedsQuantity(s.memory, p.maxMemory)
    && !ExceedsQuantity(s.storage, p.maxStorage)
    && !ExceedsDuration(s.timeout, p.maxTimeout) && !ExceedsDuration(s.idleTimeout, p.maxIdleTimeout)
  }

  lemma NoReasonMeans(p: Policy, u: Usage, s: Proposal)
    ensures (forall x :: !Reason(x, p, u, s)) <==> MeetsRules(p, u, s)
  {
    if forall x :: !Reason(x, p, u, s) {
      assert !Reason(TemplateNotAllowed, p, u, s) && !Reason(ImageRegistryNotApproved, p, u, s);
      assert !Reason(NamespaceQuotaExceeded, p, u, s) && !Reason(UserQuotaExceeded, p, u, s);
      assert !Reason(AgentQuotaExceeded, p, u, s) && !Reason(AgentImageNotApproved, p, u, s);
      assert !Reason(CPULimitExceeded, p, u, s) && !Reason(MemoryLimitExceeded, p, u, s);
      assert !Reason(StorageLimitExceeded, p, u, s);
      assert !Reason(TimeoutExceeded, p, u, s) && !Reason(IdleTimeoutExceeded, p, u, s);
    }
  }

  // An empty list means that every rule is met, and the other way round.
  lemma NoViolationMeans(p: Policy, u: Usage, s: Proposal)
    ensures Violations(p, u, s) == [] <==> MeetsRules(p, u, s)
  {
    ViolationsMean(p, u, s);
    NoReasonMeans(p, u, s);
  }

  /******* The cluster's ceiling on concurrency *******/

  const MAX_INT32 := 0x7FFF_FFFF

  // Go's conversion to a signed 32-bit integer.
  function Int32(x: int): int {
    var m := x % 0x1_0000_0000;
    if m <= MAX_INT32 then m else m - 0x1_0000_0000
  }

  predicate IsInt32(x: int) {
    -MAX_INT32 - 1 <= x <= MAX_INT32
  }

  // A requested or inherited concurrency under the ceiling of the policy; zero is no limit.
  function ClampConcurrency(p: Policy, requested: int): int {
    if p.maxConcurrentInvokes <= 0 then requested
    else
      var ceiling := Int32(p.maxConcurrentInvokes);
      if requested == 0 || requested > ceiling then ceiling else requested
  }

  // No more than the ceiling and no more than what was asked for, where either sets a limit.
  predicate Clamped(ceiling: int, requested: int, r: int) {
    && (r == requested || r == ceiling)
    && (ceiling > 0 ==> r != 0 && r <= ceiling)
    && (requested != 0 ==> r <= requested)
    && (ceiling <= 0 ==> r == requested)
  }

  // The clamp is what it says for every request exactly when the policy's ceiling fits in 32 bits.
  lemma ClampHoldsUpTo32Bits(p: Policy)
    ensures (forall requested | IsInt32(requested) ::
               Clamped(p.maxConcurrentInvokes, requested, ClampConcurrency(p, requested)))
            <==> p.maxConcurrentInvokes <= MAX_INT32
  {
    if p.maxConcurrentInvokes > MAX_INT32 {
      assert IsInt32(0) && !Clamped(p.maxConcurrentInvokes, 0, ClampConcurrency(p, 0));
    }
  }

  /******* Bulk admission is sequential admission *******/

  function NewSandbox(namespace: string, name: string, user: string, mode: string): SandboxObject {
    SandboxObject(namespace, name, Some(user), mode, Fresh)
  }

  function ModeOf(agent: bool): string {
    if agent then AGENT_MODE else ""
  }

  // Creating one sandbox after another, each admitted on the usage the ones before it left.
  predicate AdmitsEach(p: Policy, list: seq<SandboxObject>, user: string, agents: seq<bool>)
    decreases |agents|
  {
    agents == [] ||
    (&& CountsAllow(p, UsageOfAll(list, user), agents[0])
     && AdmitsEach(p, list + [NewSandbox("", "", user, ModeOf(agents[0]))], user, agents[1..]))
  }

  function Agents(agents: seq<bool>): nat {
    multiset(agents)[true]
  }

  // Fitting one more item and then the rest is fitting them all.
  lemma BulkOfMore(p: Policy, u: Usage, n: nat, agentN: nat, one: nat)
    requires one <= 1
    ensures BulkFits(p, u, n + 1, agentN + one) <==>
              CountsAllow(p, u, one == 1) && BulkFits(p, Add(u, Usage(1, 1, one)), n, agentN)
  {
  }

  function One(agent: bool): nat {
    if agent then 1 else 0
  }

  lemma OneMoreCounts(list: seq<SandboxObject>, user: string, agent: bool)
    ensures UsageOfAll(list + [NewSandbox("", "", user, ModeOf(agent))], user) ==
              Add(UsageOfAll(list, user), Usage(1, 1, One(agent)))
  {
    var sb := NewSandbox("", "", user, ModeOf(agent));
    UsageSnoc(list, sb, user);
    assert UsageOf(sb, user) == Usage(1, 1, One(agent));
  }

  // Whatever is left to admit after the first item.
  lemma AdmitsFirst(p: Policy, list: seq<SandboxObject>, user: string, agents: seq<bool>)
    requires agents != []
    ensures AdmitsEach(p, list, user, agents) <==>
              && CountsAllow(p, UsageOfAll(list, user), agents[0])
              && AdmitsEach(p, list + [NewSandbox("", "", user, ModeOf(agents[0]))], user, agents[1..])
  {
  }

  lemma {:induction false} BulkIsSequential(p: Policy, list: seq<SandboxObject>, user: string, agents: seq<bool>)
    ensures agents == [] || BulkFits(p, UsageOfAll(list, user), |agents|, Agents(agents))
            <==> AdmitsEach(p, list, user, agents)
    decreases |agents|
  {
    if agents != [] {
      var agent, rest := agents[0], agents[1..];
      var u := UsageOfAll(list, user);
      BulkIsSequential(p, list + [NewSandbox("", "", user, ModeOf(agent))], user, rest);
      OneMoreCounts(list, user, agent);
      AgentsFirst(agents);
      AdmitsFirst(p, list, user, agents);
      BulkOfMore(p, u, |rest|, Agents(rest), One(agent));
      NothingMore(p, u, agent);
    }
  }

  // A single item fits exactly when it is allowed.
  lemma NothingMore(p: Policy, u: Usage, agent: bool)
    ensures BulkFits(p, u, 1, One(agent)) <==> CountsAllow(p, u, agent)
  {
  }

  lemma AgentsFirst(agents: seq<bool>)
    requires agents != []
    ensures Agents(agents) == Agents(agents[1..]) + if agents[0] then 1 else 0
    ensures agents[1..] == [] ==> Agents(agents[1..]) == 0
  {
    assert agents == [agents[0]] + agents[1..];
  }

  // The batch passes exactly when its items, in whatever order, pass one after another.
  lemma BulkIsEveryOrder(p: Policy, list: seq<SandboxObject>, user: string, agents: seq<bool>)
    requires agents != []
    ensures BulkFits(p, UsageOfAll(list, user), |agents|, Agents(agents)) <==>
              forall order: seq<bool> | multiset(order) == multiset(agents) :: AdmitsEach(p, list, user, order)
  {
    forall order: seq<bool> | multiset(order) == multiset(agents)
      ensures AdmitsEach(p, list, user, order) <==> AdmitsEach(p, list, user, agents)
    {
      assert |order| == |multiset(order)| == |multiset(agents)| == |agents|;
      BulkIsSequential(p, list, user, order);
      BulkIsSequential(p, list, user, agents);
    }
    BulkIsSequential(p, list, user, agents);
  }

  // Past the gate, no single item is refused by a count rule on the usage before the batch.
  lemma GateCoversItems(p: Policy, u: Usage, n: nat, agentN: nat, agent: bool)
    requires n >= 1 && (agent ==> agentN >= 1) && BulkFits(p, u, n, agentN)
    ensures CountsAllow(p, u, agent)
  {
  }
}
