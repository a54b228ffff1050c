/** A sandbox's network specification compiled to a Kubernetes NetworkPolicy. */
module NetworkPolicies {
  import opened Wrappers

  /******* What a NetworkPolicy permits *******/

  datatype Operator = In | NotIn | Exists | DoesNotExist

  datatype Requirement = Requirement(key: string, op: Operator, values: set<string>)

  datatype Selector = Selector(matchLabels: map<string, string>, expressions: seq<Requirement>)

  datatype Peer = Peer(cidr: Option<string>, namespaceSelector: Option<Selector>, podSelector: Option<Selector>)

  datatype Port = Port(protocol: string, port: int)

  // No peers are any peer, no ports any port.
  datatype Rule = Rule(peers: seq<Peer>, ports: seq<Port>)

  datatype Policy = Policy(
    namespace: string,
    name: string,
    podSelector: Selector,
    egress: seq<Rule>,
    ingress: seq<Rule>
  )

  // The other end of a connection: the address blocks it lies in, and the pod it is, if one.
  datatype Pod = Pod(namespace: string, namespaceLabels: map<string, string>, labels: map<string, string>)

  datatype Flow = Flow(blocks: set<string>, pod: Option<Pod>, protocol: string, port: int)

  predicate Meets(labels: map<string, string>, r: Requirement) {
    match r.op
    case In => r.key in labels && labels[r.key] in r.values
    case NotIn => r.key !in labels || labels[r.key] !in r.values
    case Exists => r.key in labels
    case DoesNotExist => r.key !in labels
  }

  predicate Selects(s: Selector, labels: map<string, string>) {
    && (forall k :: k in s.matchLabels ==> k in labels && labels[k] == s.matchLabels[k])
    && forall r :: r in s.expressions ==> Meets(labels, r)
  }

  predicate PeerMatches(ns: string, p: Peer, f: Flow) {
    if p.cidr.Some? then p.cidr.value in f.blocks
    else
      && f.pod.Some?
      && (if p.namespaceSelector.None? then f.pod.value.namespace == ns
          else Selects(p.namespaceSelector.value, f.pod.value.namespaceLabels))
      && (p.podSelector.Some? ==> Selects(p.podSelector.value, f.pod.value.labels))
  }

  predicate PeersMatch(ns: string, peers: seq<Peer>, f: Flow) {
    peers == [] || exists p :: p in peers && PeerMatches(ns, p, f)
  }

  predicate PortsMatch(ports: seq<Port>, f: Flow) {
    ports == [] || Port(f.protocol, f.port) in ports
  }

  predicate RuleAllows(ns: string, r: Rule, f: Flow) {
    PeersMatch(ns, r.peers, f) && PortsMatch(r.ports, f)
  }

  // A selected pod may use what some rule of the direction allows, and nothing else.
  predicate Allows(ns: string, rules: seq<Rule>, f: Flow) {
    exists r :: r in rules && RuleAllows(ns, r, f)
  }

  /******* The specification, and what it means *******/

  datatype ServiceReference = ServiceReference(name: string, namespace: string)

  datatype NetworkRule = NetworkRule(cidr: string, ports: seq<Port>, service: Option<ServiceReference>)

  datatype NetworkSpec = NetworkSpec(
    allowInternet: bool,
    egressRules: seq<NetworkRule>,
    ingressRules: seq<NetworkRule>,
    allowPeerSandboxes: bool,
    peerSelector: Option<Selector>
  )

  // The router's overlay: it may come in on port 9000 from its namespace.
  datatype Options = Options(allowRouter: bool, routerNamespace: string)

  const SANDBOX_LABEL := "agenttier.io/sandbox"
  const MANAGED_LABEL := "agenttier.io/managed"
  const NAMESPACE_LABEL := "kubernetes.io/metadata.name"
  const COMPONENT_LABEL := "app.kubernetes.io/component"

  predicate IsDns(f: Flow) {
    f.port == 53 && (f.protocol == "UDP" || f.protocol == "TCP")
  }

  predicate NamesPort(ports: seq<Port>, f: Flow) {
    ports == [] ||
    exists p :: p in ports && p.port == f.port && f.protocol == (if p.protocol == "" then "TCP" else p.protocol)
  }

  // A destination is in the block, or any pod of any namespace when a service is named, or
  // anything when neither is given.
  predicate EgressRuleMeans(r: NetworkRule, f: Flow) {
    && ((r.cidr == "" && r.service.None?) || (r.cidr != "" && r.cidr in f.blocks) || (r.service.Some? && f.pod.Some?))
    && NamesPort(r.ports, f)
  }

  // A source is in the block, or anything without one: a service named here says nothing.
  predicate IngressRuleMeans(r: NetworkRule, f: Flow) {
    (r.cidr == "" || r.cidr in f.blocks) && NamesPort(r.ports, f)
  }

  predicate IsPeer(spec: NetworkSpec, ns: string, f: Flow) {
    f.pod.Some? && f.pod.value.namespace == ns && PeerLabels(spec, f.pod.value.labels)
  }

  predicate PeerLabels(spec: NetworkSpec, labels: map<string, string>) {
    if spec.peerSelector.Some? then Selects(spec.peerSelector.value, labels)
    else HasLabel(labels, MANAGED_LABEL, "true")
  }

  predicate HasLabel(labels: map<string, string>, key: string, value: string) {
    key in labels && labels[key] == value
  }

  predicate IsRouter(routerNamespace: string, f: Flow) {
    && f.pod.Some? && f.protocol == "TCP" && f.port == 9000
    && HasLabel(f.pod.value.namespaceLabels, NAMESPACE_LABEL, routerNamespace)
    && HasLabel(f.pod.value.labels, COMPONENT_LABEL, "router")
  }

  predicate AnyEgress(rules: seq<NetworkRule>, n: nat, f: Flow)
    requires n <= |rules|
  {
    exists k :: 0 <= k < n && EgressRuleMeans(rules[k], f)
  }

  predicate AnyIngress(rules: seq<NetworkRule>, n: nat, f: Flow)
    requires n <= |rules|
  {
    exists k :: 0 <= k < n && IngressRuleMeans(rules[k], f)
  }

  predicate EgressMeans(spec: Option<NetworkSpec>, ns: string, f: Flow) {
    || IsDns(f)
    || (spec.Some? && (
          || spec.value.allowInternet
          || AnyEgress(spec.value.egressRules, |spec.value.egressRules|, f)
          || (spec.value.allowPeerSandboxes && IsPeer(spec.value, ns, f))))
  }

  // With the whole Internet allowed out, nothing the user wrote about coming in is compiled.
  predicate UserIngressMeans(spec: Option<NetworkSpec>, ns: string, f: Flow) {
    && spec.Some? && !spec.value.allowInternet
    && (|| AnyIngress(spec.value.ingressRules, |spec.value.ingressRules|, f)
        || (spec.value.allowPeerSandboxes && IsPeer(spec.value, ns, f)))
  }

  predicate RouterMay(opts: Options, f: Flow) {
    opts.allowRouter && IsRouter(opts.routerNamespace, f)
  }

  // Spelled out: what may go out of a sandbox without a specification, and with one.
  lemma EgressIsExactly(spec: NetworkSpec, ns: string, f: Flow)
    ensures EgressMeans(None, ns, f) <==> f.port == 53 && (f.protocol == "UDP" || f.protocol == "TCP")
    ensures EgressMeans(Some(spec), ns, f) <==>
              || (f.port == 53 && (f.protocol == "UDP" || f.protocol == "TCP"))
              || spec.allowInternet
              || (exists r :: r in spec.egressRules && OnPort(r.ports, f)
                              && (|| (r.cidr == "" && r.service.None?)
                                  || (r.cidr != "" && r.cidr in f.blocks)
                                  || (r.service.Some? && f.pod.Some?)))
              || (spec.allowPeerSandboxes && IsNeighbour(spec, ns, f))
  {
    if k :| 0 <= k < |spec.egressRules| && EgressRuleMeans(spec.egressRules[k], f) {
      assert spec.egressRules[k] in spec.egressRules;
    }
    if r :| r in spec.egressRules && EgressRuleMeans(r, f) {
      assert AnyEgress(spec.egressRules, |spec.egressRules|, f);
    }
    forall r: NetworkRule ensures NamesPort(r.ports, f) <==> OnPort(r.ports, f) {
      PortsSpelledOut(r.ports, f);
    }
  }

  // And what may come in: the user's rules count only without the Internet, the router's always.
  lemma IngressIsExactly(spec: NetworkSpec, opts: Options, ns: string, f: Flow)
    ensures !UserIngressMeans(None, ns, f)
    ensures UserIngressMeans(Some(spec), ns, f) <==>
              && !spec.allowInternet
              && (|| (exists r :: r in spec.ingressRules && OnPort(r.ports, f) && (r.cidr == "" || r.cidr in f.blocks))
                  || (spec.allowPeerSandboxes && IsNeighbour(spec, ns, f)))
    ensures RouterMay(opts, f) <==>
              && opts.allowRouter && f.protocol == "TCP" && f.port == 9000 && f.pod.Some?
              && var pod := f.pod.value;
                 && "app.kubernetes.io/component" in pod.labels
                 && pod.labels["app.kubernetes.io/component"] == "router"
                 && "kubernetes.io/metadata.name" in pod.namespaceLabels
                 && pod.namespaceLabels["kubernetes.io/metadata.name"] == opts.routerNamespace
  {
    if k :| 0 <= k < |spec.ingressRules| && IngressRuleMeans(spec.ingressRules[k], f) {
      assert spec.ingressRules[k] in spec.ingressRules;
    }
    if r :| r in spec.ingressRules && IngressRuleMeans(r, f) {
      assert AnyIngress(spec.ingressRules, |spec.ingressRules|, f);
    }
    forall r: NetworkRule ensures NamesPort(r.ports, f) <==> OnPort(r.ports, f) {
      PortsSpelledOut(r.ports, f);
    }
  }

  // A port without a protocol is a TCP port.
  predicate OnPort(ports: seq<Port>, f: Flow) {
    || ports == []
    || (f.protocol != "" && Port(f.protocol, f.port) in ports)
    || (f.protocol == "TCP" && Port("", f.port) in ports)
  }

  lemma PortsSpelledOut(ports: seq<Port>, f: Flow)
    ensures NamesPort(ports, f) <==> OnPort(ports, f)
  {
    if OnPort(ports, f) && ports != [] {
      var named := Port(f.protocol, f.port);
      var p := if f.protocol != "" && named in ports then named else Port("", f.port);
      assert p in ports && p.port == f.port && f.protocol == if p.protocol == "" then "TCP" else p.protocol;
    }
    if p :| p in ports && p.port == f.port && f.protocol == (if p.protocol == "" then "TCP" else p.protocol) {
      assert p == Port(p.protocol, f.port);
    }
  }

  predicate IsNeighbour(spec: NetworkSpec, ns: string, f: Flow) {
    && f.pod.Some? && f.pod.value.namespace == ns
    && match spec.peerSelector
       case Some(selector) => Selects(selector, f.pod.value.labels)
       case None =>
         "agenttier.io/managed" in f.pod.value.labels && f.pod.value.labels["agenttier.io/managed"] == "true"
  }

  /******* The builder *******/

  function BuildRouterIngressRule(routerNamespace: string): (r: Rule)
    ensures forall ns, f :: RuleAllows(ns, r, f) <==> IsRouter(routerNamespace, f)
  {
    var inNamespace := Selector(map[NAMESPACE_LABEL := routerNamespace], []);
    var isRouter := Selector(map[COMPONENT_LABEL := "router"], []);
    OneLabel(NAMESPACE_LABEL, routerNamespace);
    OneLabel(COMPONENT_LABEL, "router");
    OnePeer(Peer(None, Some(inNamespace), Some(isRouter)));
    Rule([Peer(None, Some(inNamespace), Some(isRouter))], [Port("TCP", 9000)])
  }

  function BuildDNSRule(): (r: Rule)
    ensures forall ns, f :: RuleAllows(ns, r, f) <==> IsDns(f)
  {
    Rule([], [Port("UDP", 53), Port("TCP", 53)])
  }

  function BuildPeerRule(spec: NetworkSpec): (r: Rule)
    ensures forall ns, f :: RuleAllows(ns, r, f) <==> IsPeer(spec, ns, f)
  {
    var managed := Selector(map[MANAGED_LABEL := "true"], []);
    var selector := if spec.peerSelector.Some? then spec.peerSelector.value else managed;
    OneLabel(MANAGED_LABEL, "true");
    OnePeer(Peer(None, None, Some(selector)));
    Rule([Peer(None, None, Some(selector))], [])
  }

  lemma OneLabel(key: string, value: string)
    ensures forall labels :: Selects(Selector(map[key := value], []), labels) <==> HasLabel(labels, key, value)
  {
    forall labels ensures Selects(Selector(map[key := value], []), labels) <==> HasLabel(labels, key, value) {
      assert key in map[key := value];
    }
  }

  lemma OnePeer(p: Peer)
    ensures forall ns, f :: PeersMatch(ns, [p], f) <==> PeerMatches(ns, p, f)
  {
    assert forall x :: x in [p] <==> x == p;
  }

  method BuildPorts(from: seq<Port>) returns (ports: seq<Port>)
    ensures forall f :: PortsMatch(ports, f) <==> NamesPort(from, f)
  {
    ports := [];
    for i := 0 to |from|
      invariant |ports| == i
      invariant forall k :: 0 <= k < i ==>
                  ports[k] == Port(if from[k].protocol == "" then "TCP" else from[k].protocol, from[k].port)
    {
      var protocol := from[i].protocol;
      if protocol == "" {
        protocol := "TCP";
      }
      ports := ports + [Port(protocol, from[i].port)];
    }
    forall f ensures PortsMatch(ports, f) <==> NamesPort(from, f) {
      PortsAgree(from, ports, f);
    }
  }

  lemma PortsAgree(from: seq<Port>, ports: seq<Port>, f: Flow)
    requires |ports| == |from|
    requires forall k :: 0 <= k < |from| ==>
               ports[k] == Port(if from[k].protocol == "" then "TCP" else from[k].protocol, from[k].port)
    ensures PortsMatch(ports, f) <==> NamesPort(from, f)
  {
    if Port(f.protocol, f.port) in ports {
      var k :| 0 <= k < |ports| && ports[k] == Port(f.protocol, f.port);
      assert from[k] in from;
    }
    if p :| p in from && p.port == f.port && f.protocol == (if p.protocol == "" then "TCP" else p.protocol) {
      var k :| 0 <= k < |from| && from[k] == p;
      assert ports[k] == Port(f.protocol, f.port);
    }
  }

  method BuildEgressRule(rule: NetworkRule) returns (r: Rule)
    ensures forall ns, f :: RuleAllows(ns, r, f) <==> EgressRuleMeans(rule, f)
  {
    var peers: seq<Peer> := [];
    if rule.cidr != "" {
      peers := peers + [Peer(Some(rule.cidr), None, None)];
    }
    if rule.service.Some? {
      peers := peers + [Peer(None, Some(Selector(map[], [])), None)];
    }
    var ports := BuildPorts(rule.ports);
    r := Rule(peers, ports);
    forall ns, f ensures RuleAllows(ns, r, f) <==> EgressRuleMeans(rule, f) {
      EgressPeers(rule, peers, ns, f);
    }
  }

  lemma EgressPeers(rule: NetworkRule, peers: seq<Peer>, ns: string, f: Flow)
    requires peers == (if rule.cidr != "" then [Peer(Some(rule.cidr), None, None)] else [])
                      + (if rule.service.Some? then [Peer(None, Some(Selector(map[], [])), None)] else [])
    ensures PeersMatch(ns, peers, f) <==>
              || (rule.cidr == "" && rule.service.None?)
              || (rule.cidr != "" && rule.cidr in f.blocks)
              || (rule.service.Some? && f.pod.Some?)
  {
    var block, anyPod := Peer(Some(rule.cidr), None, None), Peer(None, Some(Selector(map[], [])), None);
    assert PeerMatches(ns, block, f) <==> rule.cidr in f.blocks;
    assert PeerMatches(ns, anyPod, f) <==> f.pod.Some?;
    assert forall p :: p in peers <==> (rule.cidr != "" && p == block) || (rule.service.Some? && p == anyPod);
  }

  method BuildIngressRule(rule: NetworkRule) returns (r: Rule)
    ensures forall ns, f :: RuleAllows(ns, r, f) <==> IngressRuleMeans(rule, f)
  {
    var peers: seq<Peer> := [];
    if rule.cidr != "" {
      peers := peers + [Peer(Some(rule.cidr), None, None)];
    }
    var ports := BuildPorts(rule.ports);
    r := Rule(peers, ports);
    forall ns, f ensures RuleAllows(ns, r, f) <==> IngressRuleMeans(rule, f) {
      EgressPeers(rule.(service := None), peers, ns, f);
    }
  }

  lemma AllowsMore(ns: string, rules: seq<Rule>, r: Rule, f: Flow)
    ensures Allows(ns, rules + [r], f) <==> Allows(ns, rules, f) || RuleAllows(ns, r, f)
  {
    assert r in rules + [r];
    assert forall x :: x in rules ==> x in rules + [r];
  }

  // The rules of one direction, each appended in its turn.
  method BuildEgress(ns: string, spec: NetworkSpec, start: seq<Rule>) returns (rules: seq<Rule>)
    ensures forall f ::
              Allows(ns, rules, f) <==> Allows(ns, start, f) || AnyEgress(spec.egressRules, |spec.egressRules|, f)
  {
    rules := start;
    for i := 0 to |spec.egressRules|
      invariant forall f :: Allows(ns, rules, f) <==> Allows(ns, start, f) || AnyEgress(spec.egressRules, i, f)
    {
      var rule := BuildEgressRule(spec.egressRules[i]);
      ghost var before := rules;
      rules := rules + [rule];
      forall f ensures Allows(ns, rules, f) <==> Allows(ns, start, f) || AnyEgress(spec.egressRules, i + 1, f) {
        AllowsMore(ns, before, rule, f);
        AnyEgressNext(spec.egressRules, i, f);
      }
    }
  }

  lemma AnyEgressNext(rules: seq<NetworkRule>, n: nat, f: Flow)
    requires n < |rules|
    ensures AnyEgress(rules, n + 1, f) <==> AnyEgress(rules, n, f) || EgressRuleMeans(rules[n], f)
  {
  }

  method BuildIngress(ns: string, spec: NetworkSpec, start: seq<Rule>) returns (rules: seq<Rule>)
    ensures forall f ::
              Allows(ns, rules, f) <==> Allows(ns, start, f) || AnyIngress(spec.ingressRules, |spec.ingressRules|, f)
  {
    rules := start;
    for i := 0 to |spec.ingressRules|
      invariant forall f :: Allows(ns, rules, f) <==> Allows(ns, start, f) || AnyIngress(spec.ingressRules, i, f)
    {
      var rule := BuildIngressRule(spec.ingressRules[i]);
      ghost var before := rules;
      rules := rules + [rule];
      forall f ensures Allows(ns, rules, f) <==> Allows(ns, start, f) || AnyIngress(spec.ingressRules, i + 1, f) {
        AllowsMore(ns, before, rule, f);
        AnyIngressNext(spec.ingressRules, i, f);
      }
    }
  }

  lemma AnyIngressNext(rules: seq<NetworkRule>, n: nat, f: Flow)
    requires n < |rules|
    ensures AnyIngress(rules, n + 1, f) <==> AnyIngress(rules, n, f) || IngressRuleMeans(rules[n], f)
  {
  }

  // A rule that lets everything through.
  const ANYTHING := Rule([], [])

  // The router's rule comes last, on whatever was built before.
  method Finish(ns: string, ingress: seq<Rule>, opts: Options) returns (rules: seq<Rule>)
    ensures rules == if opts.allowRouter then ingress + [BuildRouterIngressRule(opts.routerNamespace)] else ingress
    ensures forall f :: Allows(ns, rules, f) <==> Allows(ns, ingress, f) || RouterMay(opts, f)
  {
    rules := ingress;
    if opts.allowRouter {
      var rule := BuildRouterIngressRule(opts.routerNamespace);
      rules := rules + [rule];
      forall f ensures Allows(ns, rules, f) <==> Allows(ns, ingress, f) || RouterMay(opts, f) {
        AllowsMore(ns, ingress, rule, f);
      }
    }
  }

  method Build(ns: string, name: string, spec: Option<NetworkSpec>, opts: Options) returns (np: Policy)
    ensures np.namespace == ns && np.name == name + "-netpol"
    ensures forall labels :: Selects(np.podSelector, labels) <==> HasLabel(labels, SANDBOX_LABEL, name)
    ensures forall f :: Allows(ns, np.egress, f) <==> EgressMeans(spec, ns, f)
    ensures forall f :: Allows(ns, np.ingress, f) <==> UserIngressMeans(spec, ns, f) || RouterMay(opts, f)
  {
    var egress, ingress := [BuildDNSRule()], [];
    forall f ensures Allows(ns, egress, f) <==> IsDns(f) {
      AllowsMore(ns, [], BuildDNSRule(), f);
      assert [] + [BuildDNSRule()] == egress;
    }
    if spec.Some? {
      egress, ingress := BuildUserRules(ns, spec.value, egress);
    }
    ingress := Finish(ns, ingress, opts);
    np := Policy(ns, name + "-netpol", Selector(map[SANDBOX_LABEL := name], []), egress, ingress);
  }

  method BuildUserRules(ns: string, spec: NetworkSpec, start: seq<Rule>) returns (egress: seq<Rule>, ingress: seq<Rule>)
    ensures forall f :: Allows(ns, egress, f) <==>
              || Allows(ns, start, f) || spec.allowInternet
              || AnyEgress(spec.egressRules, |spec.egressRules|, f)
              || (spec.allowPeerSandboxes && IsPeer(spec, ns, f))
    ensures forall f :: Allows(ns, ingress, f) <==> UserIngressMeans(Some(spec), ns, f)
  {
    ingress := [];
    if spec.allowInternet {
      egress := start + [ANYTHING];
      forall f ensures Allows(ns, egress, f) {
        AllowsMore(ns, start, ANYTHING, f);
      }
      return;
    }
    egress := BuildEgress(ns, spec, start);
    ingress := BuildIngress(ns, spec, []);
    if spec.allowPeerSandboxes {
      var peer := BuildPeerRule(spec);
      forall f
        ensures Allows(ns, egress + [peer], f) <==> Allows(ns, egress, f) || IsPeer(spec, ns, f)
        ensures Allows(ns, ingress + [peer], f) <==> Allows(ns, ingress, f) || IsPeer(spec, ns, f)
      {
        AllowsMore(ns, egress, peer, f);
        AllowsMore(ns, ingress, peer, f);
      }
      egress, ingress := egress + [peer], ingress + [peer];
    }
  }

  // The second specification allows whatever the first does.
  predicate Extends(a: NetworkSpec, b: NetworkSpec) {
    && (a.allowInternet ==> b.allowInternet)
    && (forall r :: r in a.egressRules ==> r in b.egressRules)
    && (forall r :: r in a.ingressRules ==> r in b.ingressRules)
    && (a.allowPeerSandboxes ==> b.allowPeerSandboxes && a.peerSelector == b.peerSelector)
  }

  // Some pod could be a peer: the selector does not contradict itself.
  ghost predicate PeersPossible(spec: NetworkSpec) {
    spec.allowPeerSandboxes && exists labels :: PeerLabels(spec, labels)
  }

  // Every ingress rule lets some flow in.
  function SomeFlow(r: NetworkRule): Flow {
    var port := if r.ports == [] then Port("TCP", 0) else r.ports[0];
    Flow({r.cidr}, None, if port.protocol == "" then "TCP" else port.protocol, port.port)
  }

  lemma SomeFlowComesIn(r: NetworkRule)
    ensures IngressRuleMeans(r, SomeFlow(r))
  {
    if r.ports != [] {
      assert r.ports[0] in r.ports;
    }
  }

  lemma SomeFlowIsLetIn(spec: NetworkSpec, ns: string) returns (f: Flow)
    requires !spec.allowInternet && (spec.ingressRules != [] || PeersPossible(spec))
    ensures UserIngressMeans(Some(spec), ns, f)
  {
    if spec.ingressRules != [] {
      f := SomeFlow(spec.ingressRules[0]);
      SomeFlowComesIn(spec.ingressRules[0]);
    } else {
      var labels :| PeerLabels(spec, labels);
      f := Flow({}, Some(Pod(ns, map[], labels)), "TCP", 0);
    }
  }

  lemma IngressStaysOpen(a: NetworkSpec, b: NetworkSpec, ns: string, f: Flow)
    requires Extends(a, b) && !b.allowInternet && UserIngressMeans(Some(a), ns, f)
    ensures UserIngressMeans(Some(b), ns, f)
  {
    if AnyIngress(a.ingressRules, |a.ingressRules|, f) {
      var k :| 0 <= k < |a.ingressRules| && IngressRuleMeans(a.ingressRules[k], f);
      assert a.ingressRules[k] in b.ingressRules;
      var j :| 0 <= j < |b.ingressRules| && b.ingressRules[j] == a.ingressRules[k];
    }
  }

  lemma IngressNeedsSomeone(spec: NetworkSpec, ns: string, f: Flow)
    requires UserIngressMeans(Some(spec), ns, f)
    ensures !spec.allowInternet && (spec.ingressRules != [] || PeersPossible(spec))
  {
    if spec.allowPeerSandboxes && IsPeer(spec, ns, f) {
      assert PeerLabels(spec, f.pod.value.labels);
    }
  }

  // More in the specification closes no way in, exactly unless it newly allows the Internet to a
  // sandbox that some rule or peer could reach.
  lemma IngressIsMonotone(a: NetworkSpec, b: NetworkSpec, ns: string)
    requires Extends(a, b)
    ensures (forall f :: UserIngressMeans(Some(a), ns, f) ==> UserIngressMeans(Some(b), ns, f)) <==>
              (b.allowInternet && !a.allowInternet ==> a.ingressRules == [] && !PeersPossible(a))
  {
    if b.allowInternet && !a.allowInternet && (a.ingressRules != [] || PeersPossible(a)) {
      var f := SomeFlowIsLetIn(a, ns);
      assert !UserIngressMeans(Some(b), ns, f);
    } else {
      forall f | UserIngressMeans(Some(a), ns, f) ensures UserIngressMeans(Some(b), ns, f) {
        IngressNeedsSomeone(a, ns, f);
        if !b.allowInternet {
          IngressStaysOpen(a, b, ns, f);
        }
      }
    }
  }

  // More in the specification never closes a way out.
  lemma EgressIsMonotone(a: NetworkSpec, b: NetworkSpec, ns: string, f: Flow)
    requires Extends(a, b) && EgressMeans(Some(a), ns, f)
    ensures EgressMeans(Some(b), ns, f)
  {
    if !IsDns(f) && !a.allowInternet && AnyEgress(a.egressRules, |a.egressRules|, f) {
      var k :| 0 <= k < |a.egressRules| && EgressRuleMeans(a.egressRules[k], f);
      assert a.egressRules[k] in b.egressRules;
      var j :| 0 <= j < |b.egressRules| && b.egressRules[j] == a.egressRules[k];
    }
  }

  /******* Keeping the policy in the cluster *******/

  // The API calls that fail.
  datatype Faults = Faults(owner: bool, get: bool, write: bool)

  class Reconciler {
    var policies: map<(string, string), Policy>

    constructor ()
      ensures policies == map[]
    {
      policies := map[];
    }

    // A failure leaves what was there; success puts the specification in force, and nothing else
    // changes.
    method EnsureNetworkPolicy(ns: string, name: string, spec: Option<NetworkSpec>, opts: Options, faults: Faults)
        returns (ok: bool)
      modifies this
      ensures ok <==> !faults.owner && !faults.get && !faults.write
      ensures !ok ==> policies == old(policies)
      ensures ok ==>
                var key := (ns, name + "-netpol");
                && key in policies && policies == old(policies)[key := policies[key]]
                && (forall f :: Allows(ns, policies[key].egress, f) <==> EgressMeans(spec, ns, f))
                && (forall f :: Allows(ns, policies[key].ingress, f) <==>
                      UserIngressMeans(spec, ns, f) || RouterMay(opts, f))
                && forall labels :: Selects(policies[key].podSelector, labels) <==>
                     HasLabel(labels, SANDBOX_LABEL, name)
    {
      var desired := Build(ns, name, spec, opts);
      if faults.owner {
        return false;
      }
      if faults.get {
        return false;
      }
      var key := (ns, desired.name);
      if key in policies {
        var existing := policies[key];
        if faults.write {
          return false;
        }
        existing := existing.(podSelector := desired.podSelector, egress := desired.egress, ingress := desired.ingress);
        policies := policies[key := existing];
        return true;
      }
      if faults.write {
        return false;
      }
      policies := policies[key := desired];
      return true;
    }
  }
}
