/** What a bulk create does, in terms of the items and the sandboxes themselves. */
module BulkMeaning {
  import opened Wrappers
  import opened Api
  import opened Governance
  import opened GovernanceMeaning
  import opened BulkCreate
  import Chain = TemplateChain

  /******* The template an item means *******/

  // The router reads a template's mode where the controller resolves that template, exactly if the
  // reference names its kind: without one the two default differently.
  lemma RouterReadsTheTemplate(ref: Reference, ns: string)
    ensures ModeKey(ref, ns) == Chain.KeyOf(ref, ns) <==> ref.kind != ""
  {
  }

  // The mode of an item: that of the template it names, where that is known.
  function ModeThere(c: Cluster, key: Chain.ObjectKey): string {
    if key in c.modes then c.modes[key] else ""
  }

  function Home(c: Cluster, item: Item): string {
    if item.namespace != "" then item.namespace else c.defaultNamespace
  }

  lemma ItemModeIsTheTemplates(c: Cluster, item: Item)
    requires item.template.Some? && item.template.value.name != ""
    ensures var ref := item.template.value;
            ItemMode(c, item) ==
              if ref.kind == "SandboxTemplate" then
                ModeThere(c, Chain.Namespaced(if ref.namespace != "" then ref.namespace else Home(c, item), ref.name))
              else if ref.kind == "" || ref.kind == "ClusterSandboxTemplate" then
                ModeThere(c, Chain.ClusterWide(ref.name))
              else ""
  {
  }

  /******* One item *******/

  // A namespace whose policy could be read; an empty one asks for nothing.
  predicate Enforced(c: Cluster, ns: string) {
    c.policies.Some? && ns !in c.unresolved
  }

  predicate Complete(item: Item) {
    && item.name != "" && item.template.Some? && item.template.value.name != ""
    && !item.timeout.Malformed? && !item.idleTimeout.Malformed?
  }

  predicate TimeFits(asked: Setting, cap: Cap) {
    asked.Given? && cap.AtMost? ==> asked.value != 0 && asked.value <= cap.limit
  }

  predicate TemplateFits(p: Policy, item: Item)
    requires item.template.Some?
  {
    p.allowedTemplates == [] || item.template.value.name in p.allowedTemplates
  }

  predicate StorageFits(p: Policy, item: Item) {
    item.storage.Some? && p.maxStorage.AtMost? ==> item.storage.value <= p.maxStorage.limit
  }

  // The item's own fields against its namespace's policy.
  predicate Conforms(p: Policy, item: Item)
    requires item.template.Some?
  {
    && TemplateFits(p, item) && StorageFits(p, item)
    && TimeFits(item.timeout, p.maxTimeout) && TimeFits(item.idleTimeout, p.maxIdleTimeout)
  }

  predicate Taken(objects: seq<SandboxObject>, ns: string, name: string) {
    exists k :: 0 <= k < |objects| && objects[k].namespace == ns && objects[k].name == name
  }

  // What an item without the counting rules can violate, each in terms of its own fields.
  predicate ItemReason(p: Policy, item: Item, v: Violation)
    requires item.template.Some?
  {
    match v
    case TemplateNotAllowed => !TemplateFits(p, item)
    case StorageLimitExceeded => !StorageFits(p, item)
    case TimeoutExceeded => !TimeFits(item.timeout, p.maxTimeout)
    case IdleTimeoutExceeded => !TimeFits(item.idleTimeout, p.maxIdleTimeout)
    case _ => false
  }

  lemma ReasonsOfAnItem(c: Cluster, item: Item, p: Policy, u: Usage)
    requires Complete(item) && CountsAllow(p, u, ItemMode(c, item) == AGENT_MODE)
    ensures forall v :: v in Violations(p, u, ProposalOf(c, item)) <==> ItemReason(p, item, v)
    ensures Violations(p, u, ProposalOf(c, item)) == [] <==> Conforms(p, item)
  {
    var s := ProposalOf(c, item);
    ViolationsMean(p, u, s);
    forall v ensures Reason(v, p, u, s) <==> ItemReason(p, item, v) {
    }
    if Violations(p, u, s) == [] {
      assert !ItemReason(p, item, TemplateNotAllowed) && !ItemReason(p, item, StorageLimitExceeded);
      assert !ItemReason(p, item, TimeoutExceeded) && !ItemReason(p, item, IdleTimeoutExceeded);
    } else {
      var v := Violations(p, u, s)[0];
      assert v in Violations(p, u, s) && ItemReason(p, item, v);
    }
  }

  // What an item past the gate is judged by.
  lemma JudgedByItsFields(c: Cluster, before: seq<SandboxObject>, user: string, items: seq<Item>, i: nat)
    requires i < |items| && GateOpens(c, before, user, items) && Complete(items[i])
    ensures var item := items[i];
            var p, u := PolicyFor(c, item), UsageFor(c, before, user, item);
            && (!IsEmpty(p) ==> forall v :: v in Violations(p, u, ProposalOf(c, item)) <==> ItemReason(p, item, v))
            && (IsEmpty(p) || Violations(p, u, ProposalOf(c, item)) == [] <==>
                  Enforced(c, Home(c, item)) ==> Conforms(Resolve(c.policies.value, Home(c, item)), item))
  {
    var item := items[i];
    var p, u := PolicyFor(c, item), UsageFor(c, before, user, item);
    if Governing(c, NamespaceOf(c, item)).Some? {
      ItemSeesRoom(c, before, user, items, i);
      ReasonsOfAnItem(c, item, p, u);
    } else if Enforced(c, Home(c, item)) {
      EmptyPolicySetsNothing(Resolve(c.policies.value, Home(c, item)));
    }
  }

  lemma TakenIsThere(objects: seq<SandboxObject>, ns: string, name: string)
    ensures Taken(objects, ns, name) <==> Exists(objects, ns, name)
  {
    if sb :| sb in objects && sb.namespace == ns && sb.name == name {
      var k :| 0 <= k < |objects| && objects[k] == sb;
    }
  }

  function Results(c: Cluster, before: seq<SandboxObject>, user: string, items: seq<Item>): (r: seq<ItemResult>)
    ensures |r| == |items|
  {
    ResultCount(c, before, user, items);
    Batch(c, before, user, items, |items|).results
  }

  lemma ResultCount(c: Cluster, before: seq<SandboxObject>, user: string, items: seq<Item>)
    ensures |Batch(c, before, user, items, |items|).results| == |items|
  {
    if items != [] {
      ResultsStay(c, before, user, items, 0, |items|);
    }
  }

  // Past the gate an item is created exactly when it is complete, conforms to its namespace's
  // policy, its name is free by then, and the server takes it.
  lemma ItemIsCreatedIff(c: Cluster, before: seq<SandboxObject>, user: string, items: seq<Item>, i: nat)
    requires i < |items| && GateOpens(c, before, user, items)
    ensures var item, r := items[i], Results(c, before, user, items);
            && (r[i] == Created(i, item.name) <==>
                  && Complete(item)
                  && (Enforced(c, Home(c, item)) ==> Conforms(Resolve(c.policies.value, Home(c, item)), item))
                  && !Taken(Batch(c, before, user, items, i).objects, Home(c, item), item.name)
                  && i !in c.refusedByServer)
  {
    ResultsStay(c, before, user, items, i, |items|);
    TakenIsThere(Batch(c, before, user, items, i).objects, Home(c, items[i]), items[i].name);
    if Complete(items[i]) {
      JudgedByItsFields(c, before, user, items, i);
    }
  }

  // And otherwise it says what is wrong, the first thing first; violations of the policy are those
  // of its own fields, each exactly when it holds.
  lemma ItemErrorIsItsOwn(c: Cluster, before: seq<SandboxObject>, user: string, items: seq<Item>, i: nat)
    requires i < |items| && GateOpens(c, before, user, items)
    requires Results(c, before, user, items)[i].Failed?
    ensures var item, r := items[i], Results(c, before, user, items)[i];
            var noTemplate := item.template.None? || item.template.value.name == "";
            && r.index == i
            && (r.error == NameRequired <==> item.name == "")
            && (r.error == TemplateRequired <==> item.name != "" && noTemplate)
            && (r.error == InvalidTimeout <==> item.name != "" && !noTemplate && item.timeout.Malformed?)
            && (r.error == InvalidIdleTimeout <==>
                  item.name != "" && !noTemplate && !item.timeout.Malformed? && item.idleTimeout.Malformed?)
            && (r.error.PolicyViolation? ==>
                  && Complete(item) && Enforced(c, Home(c, item))
                  && r.error.violations != []
                  && forall v :: v in r.error.violations <==>
                       ItemReason(Resolve(c.policies.value, Home(c, item)), item, v))
            && (r.error == CreateFailed ==>
                  || i in c.refusedByServer
                  || Taken(Batch(c, before, user, items, i).objects, Home(c, item), item.name))
  {
    ResultsStay(c, before, user, items, i, |items|);
    TakenIsThere(Batch(c, before, user, items, i).objects, Home(c, items[i]), items[i].name);
    if Complete(items[i]) {
      JudgedByItsFields(c, before, user, items, i);
    }
  }

  // The sandbox of a created item: its name, in its namespace, owned by the caller, in its
  // template's mode, and not yet started.
  lemma CreatedSandbox(c: Cluster, before: seq<SandboxObject>, user: string, items: seq<Item>, i: nat)
    requires i < |items| && UniqueNames(before) && Results(c, before, user, items)[i].Created?
    ensures var item, objects := items[i], Batch(c, before, user, items, |items|).objects;
            SandboxObject(Home(c, item), item.name, Some(user), ItemMode(c, item), Fresh) in objects
  {
    BatchAccountsForResults(c, before, user, items, |items|);
    assert Backed(c, user, items[i], i, Batch(c, before, user, items, |items|));
  }

  /******* The gate *******/

  function ItemsOf(c: Cluster, items: seq<Item>, ns: string, k: nat): set<nat>
    requires k <= |items|
  {
    set i: nat | i < k && Home(c, items[i]) == ns
  }

  function AgentItemsOf(c: Cluster, items: seq<Item>, ns: string, k: nat): set<nat>
    requires k <= |items|
  {
    set i: nat | i < k && IsAgentItem(c, items[i], ns)
  }

  lemma {:induction false} AskedIsItems(c: Cluster, items: seq<Item>, ns: string, k: nat)
    requires k <= |items|
    ensures Asked(c, items, ns, k) == |ItemsOf(c, items, ns, k)|
  {
    if k == 0 {
      assert ItemsOf(c, items, ns, 0) == {};
    } else {
      AskedIsItems(c, items, ns, k - 1);
      AskedGrows(c, items, ns, k - 1);
      ItemsGrow(c, items, ns, k - 1);
    }
  }

  lemma ItemsGrow(c: Cluster, items: seq<Item>, ns: string, n: nat)
    requires n < |items|
    ensures |ItemsOf(c, items, ns, n + 1)| == |ItemsOf(c, items, ns, n)| + if Home(c, items[n]) == ns then 1 else 0
  {
    Grown(ItemsOf(c, items, ns, n), ItemsOf(c, items, ns, n + 1), n, Home(c, items[n]) == ns);
  }

  lemma AskedGrows(c: Cluster, items: seq<Item>, ns: string, n: nat)
    requires n < |items|
    ensures Asked(c, items, ns, n + 1) == Asked(c, items, ns, n) + if Home(c, items[n]) == ns then 1 else 0
  {
  }

  predicate IsAgentItem(c: Cluster, item: Item, ns: string) {
    Home(c, item) == ns && ItemMode(c, item) == "agent"
  }

  lemma AgentsAskedGrows(c: Cluster, items: seq<Item>, ns: string, n: nat)
    requires n < |items|
    ensures AgentsAsked(c, items, ns, n + 1) ==
              AgentsAsked(c, items, ns, n) + if IsAgentItem(c, items[n], ns) then 1 else 0
  {
  }

  lemma AgentItemsGrow(c: Cluster, items: seq<Item>, ns: string, n: nat)
    requires n < |items|
    ensures |AgentItemsOf(c, items, ns, n + 1)| ==
              |AgentItemsOf(c, items, ns, n)| + if IsAgentItem(c, items[n], ns) then 1 else 0
  {
    Grown(AgentItemsOf(c, items, ns, n), AgentItemsOf(c, items, ns, n + 1), n, IsAgentItem(c, items[n], ns));
  }

  // The numbers below n + 1 are those below n, and n if it is one.
  lemma Grown(s: set<nat>, t: set<nat>, n: nat, more: bool)
    requires forall i :: i in t <==> (i in s || (i == n && more))
    requires n !in s
    ensures |t| == |s| + if more then 1 else 0
  {
    assert t == if more then s + {n} else s;
    OneMore(s, t, n, more);
  }

  lemma {:induction false} AgentsAskedIsItems(c: Cluster, items: seq<Item>, ns: string, k: nat)
    requires k <= |items|
    ensures AgentsAsked(c, items, ns, k) == |AgentItemsOf(c, items, ns, k)|
  {
    if k == 0 {
      assert AgentItemsOf(c, items, ns, 0) == {};
    } else {
      AgentsAskedIsItems(c, items, ns, k - 1);
      AgentsAskedGrows(c, items, ns, k - 1);
      AgentItemsGrow(c, items, ns, k - 1);
    }
  }

  // The sandboxes of a namespace that count.
  function Here(objects: seq<SandboxObject>, ns: string): set<nat> {
    set i: nat | i < |objects| && objects[i].namespace == ns && Counts(objects[i])
  }

  function HereOf(objects: seq<SandboxObject>, ns: string, user: string): set<nat> {
    set i: nat | i < |objects| && objects[i].namespace == ns && Counts(objects[i]) && objects[i].owner == Some(user)
  }

  function AgentsHere(objects: seq<SandboxObject>, ns: string): set<nat> {
    set i: nat | i < |objects| && objects[i].namespace == ns && Counts(objects[i]) && objects[i].mode == "agent"
  }

  lemma HereNext(front: seq<SandboxObject>, sb: SandboxObject, ns: string)
    ensures |Here(front + [sb], ns)| == |Here(front, ns)| + if sb.namespace == ns && Counts(sb) then 1 else 0
  {
    var list, n, here := front + [sb], |front|, sb.namespace == ns && Counts(sb);
    assert Here(list, ns) == if here then Here(front, ns) + {n} else Here(front, ns);
    OneMore(Here(front, ns), Here(list, ns), n, here);
  }

  lemma HereOfNext(front: seq<SandboxObject>, sb: SandboxObject, ns: string, user: string)
    ensures |HereOf(front + [sb], ns, user)| == |HereOf(front, ns, user)|
              + if sb.namespace == ns && Counts(sb) && sb.owner == Some(user) then 1 else 0
  {
    var list, n := front + [sb], |front|;
    var own := sb.namespace == ns && Counts(sb) && sb.owner == Some(user);
    assert HereOf(list, ns, user) == if own then HereOf(front, ns, user) + {n} else HereOf(front, ns, user);
    OneMore(HereOf(front, ns, user), HereOf(list, ns, user), n, own);
  }

  lemma AgentsHereNext(front: seq<SandboxObject>, sb: SandboxObject, ns: string)
    ensures |AgentsHere(front + [sb], ns)| == |AgentsHere(front, ns)|
              + if sb.namespace == ns && Counts(sb) && sb.mode == "agent" then 1 else 0
  {
    var list, n := front + [sb], |front|;
    var agent := sb.namespace == ns && Counts(sb) && sb.mode == "agent";
    assert AgentsHere(list, ns) == if agent then AgentsHere(front, ns) + {n} else AgentsHere(front, ns);
    OneMore(AgentsHere(front, ns), AgentsHere(list, ns), n, agent);
  }

  lemma NobodyHere(ns: string, user: string)
    ensures |Here([], ns)| == 0 && |HereOf([], ns, user)| == 0 && |AgentsHere([], ns)| == 0
  {
    assert Here([], ns) == {} && HereOf([], ns, user) == {} && AgentsHere([], ns) == {};
  }

  lemma {:induction false} UsageInIsCounting(objects: seq<SandboxObject>, ns: string, user: string)
    ensures UsageIn(objects, ns, user) ==
              Usage(|Here(objects, ns)|, |HereOf(objects, ns, user)|, |AgentsHere(objects, ns)|)
  {
    if objects == [] {
      NobodyHere(ns, user);
    } else {
      var front, sb := objects[..|objects| - 1], objects[|objects| - 1];
      assert objects == front + [sb];
      UsageInIsCounting(front, ns, user);
      UsageInSnoc(front, sb, ns, user);
      UsageOfOne(sb, user);
      HereNext(front, sb, ns);
      HereOfNext(front, sb, ns, user);
      AgentsHereNext(front, sb, ns);
    }
  }

  // Room in a namespace for the batch's share, counted out.
  predicate HasRoom(c: Cluster, before: seq<SandboxObject>, user: string, items: seq<Item>, ns: string, p: Policy) {
    var n, agents := |ItemsOf(c, items, ns, |items|)|, |AgentItemsOf(c, items, ns, |items|)|;
    && (p.maxSandboxesTotal > 0 ==> |Here(before, ns)| + n <= p.maxSandboxesTotal)
    && (p.maxSandboxesPerUser > 0 ==> |HereOf(before, ns, user)| + n <= p.maxSandboxesPerUser)
    && (p.maxAgentSandboxes > 0 && agents > 0 ==> |AgentsHere(before, ns)| + agents <= p.maxAgentSandboxes)
  }

  // The gate stands in the way of a namespace with items and a policy: unless it can be listed and
  // has room.
  predicate Blocks(c: Cluster, before: seq<SandboxObject>, user: string, items: seq<Item>, ns: string) {
    && Enforced(c, ns) && ItemsOf(c, items, ns, |items|) != {}
    && var p := Resolve(c.policies.value, ns);
       !IsEmpty(p) && (ns in c.unlisted || !HasRoom(c, before, user, items, ns, p))
  }

  lemma BlocksMeans(c: Cluster, before: seq<SandboxObject>, user: string, items: seq<Item>, ns: string)
    ensures Blocks(c, before, user, items, ns) <==>
              Gated(c, items, ns) && (ns in c.unlisted || !Fits(c, before, user, items, ns))
  {
    AskedIsItems(c, items, ns, |items|);
    AgentsAskedIsItems(c, items, ns, |items|);
    UsageInIsCounting(before, ns, user);
    assert |ItemsOf(c, items, ns, |items|)| > 0 <==> ItemsOf(c, items, ns, |items|) != {};
  }

  // The gate opens exactly when it stands in the way of no namespace.
  lemma GateOpensIff(c: Cluster, before: seq<SandboxObject>, user: string, items: seq<Item>)
    ensures GateOpens(c, before, user, items) <==> forall ns :: !Blocks(c, before, user, items, ns)
  {
    forall ns ensures Blocks(c, before, user, items, ns) <==>
                        Gated(c, items, ns) && (ns in c.unlisted || !Fits(c, before, user, items, ns))
    {
      BlocksMeans(c, before, user, items, ns);
    }
  }
}
