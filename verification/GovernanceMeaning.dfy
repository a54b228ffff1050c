/** What the governance rules come to, apart from how they are written. */
module GovernanceMeaning {
  import opened Wrappers
  import opened Api
  import opened Governance

  /******* Usage is counting *******/

  // Everything counts that is neither being deleted nor failed: a stopped sandbox does.
  predicate Counts(sb: SandboxObject) {
    sb.phase != Deleting && sb.phase != Error
  }

  function Counted(list: seq<SandboxObject>): set<nat> {
    set i: nat | i < |list| && Counts(list[i])
  }

  function CountedOf(list: seq<SandboxObject>, user: string): set<nat> {
    set i: nat | i < |list| && Counts(list[i]) && list[i].owner == Some(user)
  }

  function CountedAgents(list: seq<SandboxObject>): set<nat> {
    set i: nat | i < |list| && Counts(list[i]) && list[i].mode == "agent"
  }

  lemma OneMore(s: set<nat>, t: set<nat>, n: nat, more: bool)
    requires t == (if more then s + {n} else s) && n !in s
    ensures |t| == |s| + if more then 1 else 0
  {
  }

  lemma CountedNext(front: seq<SandboxObject>, sb: SandboxObject)
    ensures |Counted(front + [sb])| == |Counted(front)| + if Counts(sb) then 1 else 0
  {
    var list, n := front + [sb], |front|;
    assert Counted(list) == if Counts(sb) then Counted(front) + {n} else Counted(front);
    OneMore(Counted(front), Counted(list), n, Counts(sb));
  }

  lemma CountedOfNext(front: seq<SandboxObject>, sb: SandboxObject, user: string)
    ensures |CountedOf(front + [sb], user)| ==
              |CountedOf(front, user)| + if Counts(sb) && sb.owner == Some(user) then 1 else 0
  {
    var list, n, own := front + [sb], |front|, Counts(sb) && sb.owner == Some(user);
    assert CountedOf(list, user) == if own then CountedOf(front, user) + {n} else CountedOf(front, user);
    OneMore(CountedOf(front, user), CountedOf(list, user), n, own);
  }

  lemma CountedAgentsNext(front: seq<SandboxObject>, sb: SandboxObject)
    ensures |CountedAgents(front + [sb])| ==
              |CountedAgents(front)| + if Counts(sb) && sb.mode == "agent" then 1 else 0
  {
    var list, n, agent := front + [sb], |front|, Counts(sb) && sb.mode == "agent";
    assert CountedAgents(list) == if agent then CountedAgents(front) + {n} else CountedAgents(front);
    OneMore(CountedAgents(front), CountedAgents(list), n, agent);
  }

  lemma UsageOfOne(sb: SandboxObject, user: string)
    ensures UsageOf(sb, user) == Usage(if Counts(sb) then 1 else 0,
                                       if Counts(sb) && sb.owner == Some(user) then 1 else 0,
                                       if Counts(sb) && sb.mode == "agent" then 1 else 0)
  {
  }

  lemma NothingCounts(user: string)
    ensures |Counted([])| == 0 && |CountedOf([], user)| == 0 && |CountedAgents([])| == 0
  {
    assert Counted([]) == {} && CountedOf([], user) == {} && CountedAgents([]) == {};
  }

  // The usage of a list is how many of its sandboxes count, are the user's, and are agents.
  lemma {:induction false} UsageIsCounting(list: seq<SandboxObject>, user: string)
    ensures UsageOfAll(list, user) == Usage(|Counted(list)|, |CountedOf(list, user)|, |CountedAgents(list)|)
  {
    if list == [] {
      NothingCounts(user);
    } else {
      var front, sb := list[..|list| - 1], list[|list| - 1];
      assert list == front + [sb];
      UsageIsCounting(front, user);
      UsageSnoc(front, sb, user);
      UsageOfOne(sb, user);
      CountedNext(front, sb);
      CountedOfNext(front, sb, user);
      CountedAgentsNext(front, sb);
    }
  }

  /******* Registries *******/

  // An image is approved exactly when it is some non-empty registry followed by anything.
  lemma ApprovedImages(image: string, registries: seq<string>)
    ensures HasRegistryPrefix(image, registries) <==>
              exists k, rest :: 0 <= k < |registries| && registries[k] != "" && image == registries[k] + rest
  {
    if HasRegistryPrefix(image, registries) {
      var prefix :| prefix in registries && prefix != "" && prefix <= image;
      var k :| 0 <= k < |registries| && registries[k] == prefix;
      assert image == registries[k] + image[|prefix|..];
    }
    if k, rest :| 0 <= k < |registries| && registries[k] != "" && image == registries[k] + rest {
      assert registries[k] in registries && registries[k] <= image;
    }
  }

  /******* The order of violations *******/

  function Rank(v: Violation): nat {
    match v
    case TemplateNotAllowed => 0
    case ImageRegistryNotApproved => 1
    case NamespaceQuotaExceeded => 2
    case UserQuotaExceeded => 3
    case AgentQuotaExceeded => 4
    case AgentImageNotApproved => 5
    case CPULimitExceeded => 6
    case MemoryLimitExceeded => 7
    case StorageLimitExceeded => 8
    case TimeoutExceeded => 9
    case IdleTimeoutExceeded => 10
  }

  // Strictly rising ranks, all below the bound.
  predicate InOrderBelow(out: seq<Violation>, bound: nat) {
    out == [] ||
    (Rank(out[|out| - 1]) < bound && InOrderBelow(out[..|out| - 1], Rank(out[|out| - 1])))
  }

  lemma {:induction false} OrderMeans(out: seq<Violation>, bound: nat)
    requires InOrderBelow(out, bound)
    ensures forall i, j :: 0 <= i < j < |out| ==> Rank(out[i]) < Rank(out[j])
    ensures forall i :: 0 <= i < |out| ==> Rank(out[i]) < bound
  {
    if out != [] {
      var front := out[..|out| - 1];
      OrderMeans(front, Rank(out[|out| - 1]));
      assert forall i :: 0 <= i < |front| ==> out[i] == front[i];
    }
  }

  lemma FlagKeepsOrder(out: seq<Violation>, condition: bool, v: Violation)
    requires InOrderBelow(out, Rank(v))
    ensures InOrderBelow(Flag(out, condition, v), Rank(v) + 1)
  {
    assert (out + [v])[..|out|] == out;
  }

  lemma CapsKeepOrder(out: seq<Violation>, a: bool, b: bool, c: bool, d: bool, e: bool)
    requires InOrderBelow(out, 6)
    ensures InOrderBelow(Flag(Flag(Flag(Flag(Flag(out,
              a, CPULimitExceeded), b, MemoryLimitExceeded), c, StorageLimitExceeded),
              d, TimeoutExceeded), e, IdleTimeoutExceeded), 11)
  {
    var o1 := Flag(out, a, CPULimitExceeded);
    FlagKeepsOrder(out, a, CPULimitExceeded);
    var o2 := Flag(o1, b, MemoryLimitExceeded);
    FlagKeepsOrder(o1, b, MemoryLimitExceeded);
    var o3 := Flag(o2, c, StorageLimitExceeded);
    FlagKeepsOrder(o2, c, StorageLimitExceeded);
    var o4 := Flag(o3, d, TimeoutExceeded);
    FlagKeepsOrder(o3, d, TimeoutExceeded);
    FlagKeepsOrder(o4, e, IdleTimeoutExceeded);
  }

  lemma ListsAndCountsKeepOrder(a: bool, b: bool, c: bool, d: bool, e: bool, f: bool)
    ensures InOrderBelow(Flag(Flag(Flag(Flag(Flag(Flag([],
              a, TemplateNotAllowed), b, ImageRegistryNotApproved), c, NamespaceQuotaExceeded),
              d, UserQuotaExceeded), e, AgentQuotaExceeded), f, AgentImageNotApproved), 6)
  {
    var o1 := Flag([], a, TemplateNotAllowed);
    FlagKeepsOrder([], a, TemplateNotAllowed);
    var o2 := Flag(o1, b, ImageRegistryNotApproved);
    FlagKeepsOrder(o1, b, ImageRegistryNotApproved);
    var o3 := Flag(o2, c, NamespaceQuotaExceeded);
    FlagKeepsOrder(o2, c, NamespaceQuotaExceeded);
    var o4 := Flag(o3, d, UserQuotaExceeded);
    FlagKeepsOrder(o3, d, UserQuotaExceeded);
    var o5 := Flag(o4, e, AgentQuotaExceeded);
    FlagKeepsOrder(o4, e, AgentQuotaExceeded);
    FlagKeepsOrder(o5, f, AgentImageNotApproved);
  }

  lemma ResourcesKeepOrder(out: seq<Violation>, p: Policy, s: Proposal)
    requires InOrderBelow(out, 6)
    ensures InOrderBelow(ResourceViolations(out, p, s), 11)
  {
    CapsKeepOrder(out, ExceedsQuantity(s.cpu, p.maxCPU), ExceedsQuantity(s.memory, p.maxMemory),
                  ExceedsQuantity(s.storage, p.maxStorage),
                  ExceedsDuration(s.timeout, p.maxTimeout), ExceedsDuration(s.idleTimeout, p.maxIdleTimeout));
  }

  lemma RulesKeepOrder(p: Policy, u: Usage, s: Proposal)
    ensures InOrderBelow(Violations(p, u, s), 11)
  {
    var a, b, c := TemplateRefused(p, s), RegistryRefused(p, s), NamespaceFull(p, u);
    var d, e, f := UserFull(p, u), s.mode == AGENT_MODE && AgentsFull(p, u), AgentImageRefused(p, s);
    ListsAndCountsKeepOrder(a, b, c, d, e, f);
    var head := Flag(Flag(Flag(Flag(Flag(Flag([],
                  a, TemplateNotAllowed), b, ImageRegistryNotApproved), c, NamespaceQuotaExceeded),
                  d, UserQuotaExceeded), e, AgentQuotaExceeded), f, AgentImageNotApproved);
    ResourcesKeepOrder(head, p, s);
  }

  // Each violation is listed once, in the order of the rules.
  lemma ViolationsAreInOrder(p: Policy, u: Usage, s: Proposal)
    ensures var out := Violations(p, u, s); forall i, j :: 0 <= i < j < |out| ==> Rank(out[i]) < Rank(out[j])
  {
    RulesKeepOrder(p, u, s);
    OrderMeans(Violations(p, u, s), 11);
  }

  /******* No policy *******/

  // A policy is empty exactly when it sets nothing but a description.
  lemma EmptyPolicySetsNothing(p: Policy)
    ensures IsEmpty(p) <==>
              && p.maxSandboxesPerUser == 0 && p.maxSandboxesTotal == 0 && p.maxAgentSandboxes == 0
              && p.maxConcurrentInvokes == 0
              && p.maxCPU == NoCap && p.maxMemory == NoCap && p.maxStorage == NoCap
              && p.maxTimeout == NoCap && p.maxIdleTimeout == NoCap
              && p.allowedTemplates == [] && p.approvedRegistries == [] && p.allowedAgentImages == []
  {
  }

  // Skipping the rules under an empty policy skips nothing.
  lemma EmptyPolicyAllowsAll(p: Policy, u: Usage, s: Proposal)
    requires IsEmpty(p)
    ensures Violations(p, u, s) == []
  {
    ViolationsMean(p, u, s);
  }
}
