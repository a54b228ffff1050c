/** Merging template specs along an inheritance chain, and a sandbox over the result. */
module TemplateMerge {
  import opened Wrappers
  import opened Api
  import opened OrderedMerge

  datatype ImageSpec = ImageSpec(repository: string, pullPolicy: string, pullSecret: string)
  datatype StorageSpec = StorageSpec(mountPath: string, rest: Blob)
  type EnvVar = Entry
  type FileSpec = Entry

  datatype AgentSpec = AgentSpec(
    entrypoint: seq<string>,
    installCommand: seq<string>,
    workingDir: string,
    env: seq<EnvVar>,
    maxConcurrentInvokes: Option<int>,
    defaultInvokeTimeout: Option<int>
  )

  datatype HarnessSpec = HarnessSpec(
    command: seq<string>,
    args: seq<string>,
    workingDir: string,
    shell: string,
    tools: seq<Blob>,
    systemPrompt: Option<Blob>,
    skills: seq<Blob>,
    hooks: Option<Blob>,
    constraints: Option<Blob>,
    agent: Option<AgentSpec>,
    useHTTPExec: Option<bool>
  )

  datatype TemplateSpec = TemplateSpec(
    inheritsFrom: Option<Reference>,
    mode: string,
    description: string,
    image: Option<ImageSpec>,
    resources: Option<Blob>,
    storage: Option<StorageSpec>,
    network: Option<Blob>,
    env: seq<EnvVar>,
    timeout: Option<int>,
    idleTimeout: Option<int>,
    runtimeClass: Option<string>,
    harness: Option<HarnessSpec>,
    initScripts: seq<string>,
    files: seq<FileSpec>,
    credentials: seq<Blob>,
    sidecars: seq<Blob>,
    initContainers: seq<Blob>,
    security: Option<bool>,
    serviceAccount: string
  )

  const EMPTY_SPEC := TemplateSpec(
    None, "", "", None, None, None, None, [], None, None, None, None, [], [], [], [], [], None, "")

  /******* The merge *******/

  function Over<T>(parent: Option<T>, child: Option<T>): Option<T> {
    if child.Some? then child else parent
  }

  function OverText(parent: string, child: string): string {
    if child != "" then child else parent
  }

  function OverList<T>(parent: seq<T>, child: seq<T>): seq<T> {
    if |child| > 0 then child else parent
  }

  function MergeAgent(parent: AgentSpec, child: AgentSpec): AgentSpec {
    AgentSpec(
      OverList(parent.entrypoint, child.entrypoint),
      OverList(parent.installCommand, child.installCommand),
      OverText(parent.workingDir, child.workingDir),
      Merge(parent.env, child.env),
      Over(parent.maxConcurrentInvokes, child.maxConcurrentInvokes),
      Over(parent.defaultInvokeTimeout, child.defaultInvokeTimeout))
  }

  function MergeHarness(parent: HarnessSpec, child: HarnessSpec): HarnessSpec {
    HarnessSpec(
      OverList(parent.command, child.command),
      OverList(parent.args, child.args),
      OverText(parent.workingDir, child.workingDir),
      OverText(parent.shell, child.shell),
      parent.tools + child.tools,
      Over(parent.systemPrompt, child.systemPrompt),
      parent.skills + child.skills,
      Over(parent.hooks, child.hooks),
      Over(parent.constraints, child.constraints),
      match (parent.agent, child.agent)
        case (_, None) => parent.agent
        case (None, _) => child.agent
        case (Some(a), Some(b)) => Some(MergeAgent(a, b)),
      Over(parent.useHTTPExec, child.useHTTPExec))
  }

  function MergeSpecs(parent: TemplateSpec, child: TemplateSpec): TemplateSpec {
    TemplateSpec(
      parent.inheritsFrom,
      OverText(parent.mode, child.mode),
      OverText(parent.description, child.description),
      Over(parent.image, child.image),
      Over(parent.resources, child.resources),
      Over(parent.storage, child.storage),
      Over(parent.network, child.network),
      Merge(parent.env, child.env),
      Over(parent.timeout, child.timeout),
      Over(parent.idleTimeout, child.idleTimeout),
      Over(parent.runtimeClass, child.runtimeClass),
      match (parent.harness, child.harness)
        case (_, None) => parent.harness
        case (None, _) => child.harness
        case (Some(a), Some(b)) => Some(MergeHarness(a, b)),
      parent.initScripts + child.initScripts,
      Merge(parent.files, child.files),
      parent.credentials + child.credentials,
      parent.sidecars + child.sidecars,
      parent.initContainers + child.initContainers,
      Over(parent.security, child.security),
      parent.serviceAccount)
  }

  /******* Associativity *******/

  lemma MergeAgentIsAssociative(a: AgentSpec, b: AgentSpec, c: AgentSpec)
    ensures MergeAgent(MergeAgent(a, b), c) == MergeAgent(a, MergeAgent(b, c))
  {
    MergeIsAssociative(a.env, b.env, c.env);
  }

  lemma MergeHarnessIsAssociative(a: HarnessSpec, b: HarnessSpec, c: HarnessSpec)
    ensures MergeHarness(MergeHarness(a, b), c) == MergeHarness(a, MergeHarness(b, c))
  {
    if a.agent.Some? && b.agent.Some? && c.agent.Some? {
      MergeAgentIsAssociative(a.agent.value, b.agent.value, c.agent.value);
    }
    assert a.tools + b.tools + c.tools == a.tools + (b.tools + c.tools);
    assert a.skills + b.skills + c.skills == a.skills + (b.skills + c.skills);
  }

  lemma MergeSpecsIsAssociative(a: TemplateSpec, b: TemplateSpec, c: TemplateSpec)
    ensures MergeSpecs(MergeSpecs(a, b), c) == MergeSpecs(a, MergeSpecs(b, c))
  {
    MergeIsAssociative(a.env, b.env, c.env);
    MergeIsAssociative(a.files, b.files, c.files);
    if a.harness.Some? && b.harness.Some? && c.harness.Some? {
      MergeHarnessIsAssociative(a.harness.value, b.harness.value, c.harness.value);
    }
    assert a.initScripts + b.initScripts + c.initScripts == a.initScripts + (b.initScripts + c.initScripts);
    assert a.credentials + b.credentials + c.credentials == a.credentials + (b.credentials + c.credentials);
    assert a.sidecars + b.sidecars + c.sidecars == a.sidecars + (b.sidecars + c.sidecars);
    assert a.initContainers + b.initContainers + c.initContainers
        == a.initContainers + (b.initContainers + c.initContainers);
  }

  /******* Chains *******/

  function Fold(chain: seq<TemplateSpec>): TemplateSpec {
    if |chain| == 0 then EMPTY_SPEC
    else if |chain| == 1 then chain[0]
    else MergeSpecs(Fold(chain[..|chain| - 1]), chain[|chain| - 1])
  }

  method MergeChain(chain: seq<TemplateSpec>) returns (merged: TemplateSpec)
    ensures merged == Fold(chain)
  {
    if |chain| == 0 {
      return EMPTY_SPEC;
    }
    merged := chain[0];
    for i := 1 to |chain|
      invariant merged == Fold(chain[..i])
    {
      assert chain[..i + 1][..i] == chain[..i];
      merged := MergeSpecs(merged, chain[i]);
    }
    assert chain[..|chain|] == chain;
  }

  // Any way of bracketing a chain.
  datatype Grouping = One(spec: TemplateSpec) | Join(left: Grouping, right: Grouping)

  function Chain(g: Grouping): (chain: seq<TemplateSpec>)
    ensures chain != []
  {
    match g
    case One(spec) => [spec]
    case Join(left, right) => Chain(left) + Chain(right)
  }

  function MergeGrouped(g: Grouping): TemplateSpec {
    match g
    case One(spec) => spec
    case Join(left, right) => MergeSpecs(MergeGrouped(left), MergeGrouped(right))
  }

  lemma FoldSnoc(front: seq<TemplateSpec>, c: TemplateSpec)
    requires front != []
    ensures Fold(front + [c]) == MergeSpecs(Fold(front), c)
  {
    assert (front + [c])[..|front|] == front;
  }

  lemma Regroup(x: TemplateSpec, y: TemplateSpec, c: TemplateSpec, xy: TemplateSpec, yc: TemplateSpec)
    requires xy == MergeSpecs(x, y) && yc == MergeSpecs(y, c)
    ensures MergeSpecs(xy, c) == MergeSpecs(x, yc)
  {
    MergeSpecsIsAssociative(x, y, c);
  }

  lemma FoldOne(c: TemplateSpec)
    ensures Fold([c]) == c
  {
  }

  lemma {:induction false} FoldConcat(x: seq<TemplateSpec>, y: seq<TemplateSpec>)
    requires x != [] && y != []
    ensures Fold(x + y) == MergeSpecs(Fold(x), Fold(y))
  {
    var front, c := y[..|y| - 1], y[|y| - 1];
    assert y == front + [c] && x + y == x + front + [c];
    if front == [] {
      assert x + front == x && y == [c];
      FoldSnoc(x, c);
      FoldOne(c);
    } else {
      FoldSnoc(x + front, c);
      FoldConcat(x, front);
      FoldSnoc(front, c);
      Regroup(Fold(x), Fold(front), c, Fold(x + front), Fold(y));
    }
  }

  // Every bracketing of a chain merges to the same spec.
  lemma {:induction false} AnyGroupingAgrees(g: Grouping)
    ensures MergeGrouped(g) == Fold(Chain(g))
  {
    match g
    case One(spec) =>
    case Join(left, right) =>
      AnyGroupingAgrees(left);
      AnyGroupingAgrees(right);
      FoldConcat(Chain(left), Chain(right));
  }

  /******* What each merged field is *******/

  // The last value set along a chain, root first: the deepest template that sets it.
  function Deepest<T>(values: seq<Option<T>>): Option<T> {
    if values == [] then None else Over(Deepest(values[..|values| - 1]), values[|values| - 1])
  }

  lemma {:induction false} DeepestMeaning<T>(values: seq<Option<T>>)
    ensures Deepest(values).None? <==> forall i | 0 <= i < |values| :: values[i].None?
    ensures Deepest(values).Some? ==>
              exists i :: 0 <= i < |values| && values[i] == Deepest(values)
                          && forall j | i < j < |values| :: values[j].None?
  {
    if values != [] {
      var n := |values| - 1;
      DeepestMeaning(values[..n]);
      if values[n].None? && Deepest(values[..n]).Some? {
        var i :| 0 <= i < n && values[..n][i] == Deepest(values[..n])
                 && forall j | i < j < n :: values[..n][j].None?;
        assert values[i] == Deepest(values) && forall j | i < j < |values| :: values[j].None?;
      } else if values[n].Some? {
        assert values[n] == Deepest(values);
      }
    }
  }

  // The fields a child overrides, those of the harness and the agent inside it included.
  datatype ScalarField =
    | Mode | Description | Image | Resources | Storage | Network | Timeout | IdleTimeout | RuntimeClass | Security
    | Command | Args | WorkingDir | Shell | SystemPrompt | Hooks | Constraints | UseHTTPExec
    | Entrypoint | InstallCommand | AgentWorkingDir | MaxConcurrentInvokes | DefaultInvokeTimeout

  datatype Value =
    | TextValue(text: string)
    | ListValue(list: seq<string>)
    | NumberValue(number: int)
    | FlagValue(flag: bool)
    | ImageValue(image: ImageSpec)
    | StorageValue(storage: StorageSpec)

  function Text(text: string): Option<Value> {
    if text == "" then None else Some(TextValue(text))
  }

  function List(list: seq<string>): Option<Value> {
    if list == [] then None else Some(ListValue(list))
  }

  function Number(number: Option<int>): Option<Value> {
    if number.None? then None else Some(NumberValue(number.value))
  }

  function BlobValue(blob: Option<Blob>): Option<Value> {
    if blob.None? then None else Some(TextValue(blob.value))
  }

  function Flag(flag: Option<bool>): Option<Value> {
    if flag.None? then None else Some(FlagValue(flag.value))
  }

  function AgentScalar(f: ScalarField, a: AgentSpec): Option<Value> {
    match f
    case Entrypoint => List(a.entrypoint)
    case InstallCommand => List(a.installCommand)
    case AgentWorkingDir => Text(a.workingDir)
    case MaxConcurrentInvokes => Number(a.maxConcurrentInvokes)
    case DefaultInvokeTimeout => Number(a.defaultInvokeTimeout)
    case _ => None
  }

  function HarnessScalar(f: ScalarField, h: HarnessSpec): Option<Value> {
    match f
    case Command => List(h.command)
    case Args => List(h.args)
    case WorkingDir => Text(h.workingDir)
    case Shell => Text(h.shell)
    case SystemPrompt => BlobValue(h.systemPrompt)
    case Hooks => BlobValue(h.hooks)
    case Constraints => BlobValue(h.constraints)
    case UseHTTPExec => Flag(h.useHTTPExec)
    case _ => if h.agent.Some? then AgentScalar(f, h.agent.value) else None
  }

  // What a template sets a field to, if it does.
  function Scalar(f: ScalarField, s: TemplateSpec): Option<Value> {
    match f
    case Mode => Text(s.mode)
    case Description => Text(s.description)
    case Image => if s.image.None? then None else Some(ImageValue(s.image.value))
    case Resources => BlobValue(s.resources)
    case Storage => if s.storage.None? then None else Some(StorageValue(s.storage.value))
    case Network => BlobValue(s.network)
    case Timeout => Number(s.timeout)
    case IdleTimeout => Number(s.idleTimeout)
    case RuntimeClass => BlobValue(s.runtimeClass)
    case Security => Flag(s.security)
    case _ => if s.harness.Some? then HarnessScalar(f, s.harness.value) else None
  }

  function ScalarColumn(f: ScalarField, chain: seq<TemplateSpec>): seq<Option<Value>> {
    if chain == [] then []
    else ScalarColumn(f, chain[..|chain| - 1]) + [Scalar(f, chain[|chain| - 1])]
  }

  lemma AgentScalarOverrides(f: ScalarField, a: AgentSpec, b: AgentSpec)
    ensures AgentScalar(f, MergeAgent(a, b)) == Over(AgentScalar(f, a), AgentScalar(f, b))
  {
  }

  lemma HarnessScalarOverrides(f: ScalarField, a: HarnessSpec, b: HarnessSpec)
    ensures HarnessScalar(f, MergeHarness(a, b)) == Over(HarnessScalar(f, a), HarnessScalar(f, b))
  {
    if a.agent.Some? && b.agent.Some? {
      AgentScalarOverrides(f, a.agent.value, b.agent.value);
    }
  }

  lemma ScalarOverrides(f: ScalarField, a: TemplateSpec, b: TemplateSpec)
    ensures Scalar(f, MergeSpecs(a, b)) == Over(Scalar(f, a), Scalar(f, b))
  {
    if a.harness.Some? && b.harness.Some? {
      HarnessScalarOverrides(f, a.harness.value, b.harness.value);
    }
  }

  // Each scalar of the merged spec, nested ones included, is that of the deepest template that
  // sets it.
  lemma {:induction false} ScalarsAreDeepest(f: ScalarField, chain: seq<TemplateSpec>)
    requires chain != []
    ensures Scalar(f, Fold(chain)) == Deepest(ScalarColumn(f, chain))
  {
    var n := |chain| - 1;
    if n == 0 {
      assert ScalarColumn(f, chain) == [Scalar(f, chain[0])];
    } else {
      ScalarsAreDeepest(f, chain[..n]);
      ScalarOverrides(f, Fold(chain[..n]), chain[n]);
      assert ScalarColumn(f, chain)[..|ScalarColumn(f, chain)| - 1] == ScalarColumn(f, chain[..n]);
    }
  }

  // The two fields the merge never takes from a child are the root's.
  lemma {:induction false} RootFields(chain: seq<TemplateSpec>)
    requires chain != []
    ensures Fold(chain).serviceAccount == chain[0].serviceAccount
    ensures Fold(chain).inheritsFrom == chain[0].inheritsFrom
  {
    if |chain| > 1 {
      RootFields(chain[..|chain| - 1]);
    }
  }

  datatype ListField = Sidecars | InitContainers | Credentials | InitScripts | Tools | Skills

  function ListOf(f: ListField, s: TemplateSpec): seq<Blob> {
    match f
    case Sidecars => s.sidecars
    case InitContainers => s.initContainers
    case Credentials => s.credentials
    case InitScripts => s.initScripts
    case Tools => if s.harness.Some? then s.harness.value.tools else []
    case Skills => if s.harness.Some? then s.harness.value.skills else []
  }

  function ListColumn(f: ListField, chain: seq<TemplateSpec>): seq<seq<Blob>> {
    if chain == [] then [] else ListColumn(f, chain[..|chain| - 1]) + [ListOf(f, chain[|chain| - 1])]
  }

  lemma ListsJoin(f: ListField, a: TemplateSpec, b: TemplateSpec)
    ensures ListOf(f, MergeSpecs(a, b)) == ListOf(f, a) + ListOf(f, b)
  {
  }

  lemma ListColumnSnoc(f: ListField, front: seq<TemplateSpec>, c: TemplateSpec)
    ensures ListColumn(f, front + [c]) == ListColumn(f, front) + [ListOf(f, c)]
  {
    assert (front + [c])[..|front|] == front;
  }

  // Additive lists are the chain's concatenation.
  lemma {:induction false} ListsAreConcatenated(f: ListField, chain: seq<TemplateSpec>)
    requires chain != []
    ensures ListOf(f, Fold(chain)) == Flatten(ListColumn(f, chain))
  {
    var front, c := chain[..|chain| - 1], chain[|chain| - 1];
    assert chain == front + [c];
    ListColumnSnoc(f, front, c);
    FlattenSnoc(ListColumn(f, front), ListOf(f, c));
    if front != [] {
      ListsAreConcatenated(f, front);
      FoldSnoc(front, c);
      ListsJoin(f, Fold(front), c);
    }
  }

  datatype KeyedField = Env | Files | AgentEnv

  function AgentEnvOf(h: HarnessSpec): seq<EnvVar> {
    if h.agent.Some? then h.agent.value.env else []
  }

  function KeyedOf(f: KeyedField, s: TemplateSpec): seq<Entry> {
    match f
    case Env => s.env
    case Files => s.files
    case AgentEnv => if s.harness.Some? then AgentEnvOf(s.harness.value) else []
  }

  function KeyedColumn(f: KeyedField, chain: seq<TemplateSpec>): seq<seq<Entry>> {
    if chain == [] then [] else KeyedColumn(f, chain[..|chain| - 1]) + [KeyedOf(f, chain[|chain| - 1])]
  }

  lemma KeyedMerges(f: KeyedField, a: TemplateSpec, b: TemplateSpec)
    ensures KeyedOf(f, MergeSpecs(a, b)) == Merge(KeyedOf(f, a), KeyedOf(f, b))
  {
  }

  lemma KeyedColumnSnoc(f: KeyedField, front: seq<TemplateSpec>, c: TemplateSpec)
    ensures KeyedColumn(f, front + [c]) == KeyedColumn(f, front) + [KeyedOf(f, c)]
  {
    assert (front + [c])[..|front|] == front;
  }

  // Keyed lists are the chain's ordered merge.
  lemma {:induction false} KeyedAreMerged(f: KeyedField, chain: seq<TemplateSpec>)
    requires chain != []
    ensures KeyedOf(f, Fold(chain)) == MergeAll(KeyedColumn(f, chain))
  {
    var front, c := chain[..|chain| - 1], chain[|chain| - 1];
    assert chain == front + [c];
    KeyedColumnSnoc(f, front, c);
    MergeAllSnoc(KeyedColumn(f, front), KeyedOf(f, c));
    if front != [] {
      KeyedAreMerged(f, front);
      FoldSnoc(front, c);
      KeyedMerges(f, Fold(front), c);
    }
  }
}
