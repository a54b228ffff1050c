/** The pod configuration: sandbox over resolved template over controller defaults. */
module PodConfig {
  import opened Wrappers
  import opened Api
  import opened OrderedMerge
  import opened TemplateMerge

  const DEFAULT_MOUNT_PATH := "/workspace"
  const DEFAULT_SHELL := "/bin/bash"

  datatype SandboxSpec = SandboxSpec(
    mode: string,
    image: Option<ImageSpec>,
    resources: Option<Blob>,
    storage: Option<StorageSpec>,
    runtimeClass: Option<string>,
    serviceAccount: string,
    security: Option<bool>,
    env: seq<EnvVar>,
    sidecars: seq<Blob>,
    initContainers: seq<Blob>,
    credentials: seq<Blob>
  )

  datatype Defaults = Defaults(image: string, resources: Option<Blob>, memorySidecarImage: string)

  datatype Scalars = Scalars(
    image: ImageSpec,
    resources: Option<Blob>,
    mountPath: string,
    runtimeClass: Option<string>,
    serviceAccount: string,
    privileged: bool
  )

  datatype Config = Config(
    scalars: Scalars,
    command: seq<string>,
    args: seq<string>,
    workingDir: string,
    shell: string,
    useHTTPExec: bool,
    env: seq<EnvVar>,
    sidecars: seq<Blob>,
    initContainers: seq<Blob>,
    credentials: seq<Blob>,
    initScripts: seq<string>,
    files: seq<FileSpec>
  )

  const NO_HARNESS := HarnessSpec([], [], "", "", [], None, [], None, None, None, None)
  const MEMORY_ENV: EnvVar := Entry("MEM0_BASE_URL", "http://localhost:8000")

  function MemorySidecar(image: string, mountPath: string): Blob {
    "mem0:" + image + ":" + mountPath + "/.agenttier/memory"
  }

  function MountPathOf(storage: Option<StorageSpec>): string {
    if storage.Some? then storage.value.mountPath else ""
  }

  // Sandbox over template over default, field by field.
  function ScalarsOver(sandbox: SandboxSpec, template: Option<TemplateSpec>, defaults: Option<Defaults>): Scalars {
    var t := if template.Some? then template.value else EMPTY_SPEC;
    var fallback := if defaults.Some? then defaults.value else Defaults("", None, "");
    var image := Over(t.image, sandbox.image);
    Scalars(
      if image.Some? then image.value else ImageSpec(fallback.image, "", ""),
      Over(fallback.resources, Over(t.resources, sandbox.resources)),
      OverText(DEFAULT_MOUNT_PATH, OverText(MountPathOf(t.storage), MountPathOf(sandbox.storage))),
      Over(t.runtimeClass, sandbox.runtimeClass),
      OverText(t.serviceAccount, sandbox.serviceAccount),
      Over(t.security, sandbox.security) == Some(true))
  }

  method MergeScalars(sandbox: SandboxSpec, template: Option<TemplateSpec>, defaults: Option<Defaults>)
    returns (scalars: Scalars)
    ensures scalars == ScalarsOver(sandbox, template, defaults)
  {
    ghost var all := ScalarsOver(sandbox, template, defaults);
    var image := ImageSpec("", "", "");
    if sandbox.image.Some? {
      image := sandbox.image.value;
    } else if template.Some? && template.value.image.Some? {
      image := template.value.image.value;
    } else if defaults.Some? {
      image := image.(repository := defaults.value.image);
    }
    assert image == all.image;

    var resources := None;
    if sandbox.resources.Some? {
      resources := sandbox.resources;
    } else if template.Some? && template.value.resources.Some? {
      resources := template.value.resources;
    } else if defaults.Some? {
      resources := defaults.value.resources;
    }
    assert resources == all.resources;

    var mountPath := DEFAULT_MOUNT_PATH;
    if sandbox.storage.Some? && sandbox.storage.value.mountPath != "" {
      mountPath := sandbox.storage.value.mountPath;
    } else if template.Some? && template.value.storage.Some? && template.value.storage.value.mountPath != "" {
      mountPath := template.value.storage.value.mountPath;
    }
    assert mountPath == all.mountPath;

    var runtimeClass := None;
    if sandbox.runtimeClass.Some? {
      runtimeClass := sandbox.runtimeClass;
    } else if template.Some? && template.value.runtimeClass.Some? {
      runtimeClass := template.value.runtimeClass;
    }
    assert runtimeClass == all.runtimeClass;

    var serviceAccount := "";
    if sandbox.serviceAccount != "" {
      serviceAccount := sandbox.serviceAccount;
    } else if template.Some? && template.value.serviceAccount != "" {
      serviceAccount := template.value.serviceAccount;
    }
    assert serviceAccount == all.serviceAccount;

    var privileged := false;
    if sandbox.security.Some? {
      privileged := sandbox.security.value;
    } else if template.Some? && template.value.security.Some? {
      privileged := template.value.security.value;
    }
    assert privileged == all.privileged;

    scalars := Scalars(image, resources, mountPath, runtimeClass, serviceAccount, privileged);
  }

  method MergeSandboxWithTemplate(sandbox: SandboxSpec, template: Option<TemplateSpec>, defaults: Option<Defaults>)
    returns (config: Config)
    ensures config.scalars == ScalarsOver(sandbox, template, defaults)
    ensures var h := if template.Some? && template.value.harness.Some? then template.value.harness.value
                     else NO_HARNESS;
            && config.command == h.command && config.args == h.args && config.workingDir == h.workingDir
            && config.shell == (if h.shell == "" then DEFAULT_SHELL else h.shell)
            && config.useHTTPExec == (h.useHTTPExec == Some(true))
    ensures var t := if template.Some? then template.value else EMPTY_SPEC;
            var memory := defaults.Some? && defaults.value.memorySidecarImage != "" && sandbox.mode == AGENT_MODE;
            && config.env == Merge(Merge(t.env, sandbox.env), if memory then [MEMORY_ENV] else [])
            && config.sidecars == t.sidecars + sandbox.sidecars
                                  + (if memory
                                     then [MemorySidecar(defaults.value.memorySidecarImage, config.scalars.mountPath)]
                                     else [])
            && config.initContainers == t.initContainers + sandbox.initContainers
            && config.credentials == t.credentials + sandbox.credentials
            && config.initScripts == t.initScripts && config.files == t.files
  {
    var scalars := MergeScalars(sandbox, template, defaults);
    var mountPath := scalars.mountPath;

    var command, args, workingDir, shell, useHTTPExec := [], [], "", DEFAULT_SHELL, false;
    if template.Some? && template.value.harness.Some? {
      var h := template.value.harness.value;
      command, args := h.command, h.args;
      if h.workingDir != "" {
        workingDir := h.workingDir;
      }
      if h.shell != "" {
        shell := h.shell;
      }
      if h.useHTTPExec.Some? {
        useHTTPExec := h.useHTTPExec.value;
      }
    }

    var templateEnv := if template.Some? then template.value.env else [];
    var env := MergeEntries(templateEnv, sandbox.env);
    var sidecars, initContainers, credentials := [], [], [];
    var initScripts, files := [], [];
    if template.Some? {
      sidecars := template.value.sidecars;
      initContainers := template.value.initContainers;
      credentials := template.value.credentials;
      initScripts, files := template.value.initScripts, template.value.files;
    }
    sidecars := sidecars + sandbox.sidecars;
    initContainers := initContainers + sandbox.initContainers;
    credentials := credentials + sandbox.credentials;

    if defaults.Some? && defaults.value.memorySidecarImage != "" && sandbox.mode == AGENT_MODE {
      sidecars := sidecars + [MemorySidecar(defaults.value.memorySidecarImage, mountPath)];
      env := MergeEntries(env, [MEMORY_ENV]);
    }
    config := Config(scalars, command, args, workingDir, shell, useHTTPExec, env, sidecars, initContainers,
                     credentials, initScripts, files);
  }

  // A pod's environment is one ordered merge, root to child to sandbox.
  lemma PodEnvAlongChain(chain: seq<TemplateSpec>, sandboxEnv: seq<EnvVar>)
    requires chain != []
    ensures var all := KeyedColumn(Env, chain) + [sandboxEnv];
            Merge(Fold(chain).env, sandboxEnv) == if NonEmpty(all) >= 2 then Dedup(Flatten(all)) else Flatten(all)
  {
    var lists := KeyedColumn(Env, chain);
    KeyedAreMerged(Env, chain);
    assert (lists + [sandboxEnv])[..|lists|] == lists;
    MergeAllIsDedup(lists + [sandboxEnv]);
  }

  /******* Layers *******/

  function PathSet(storage: Option<StorageSpec>): Option<string> {
    if storage.Some? && storage.value.mountPath != "" then Some(storage.value.mountPath) else None
  }

  function NameSet(name: string): Option<string> {
    if name != "" then Some(name) else None
  }

  // Each scalar is set by the innermost of its layers: defaults, then template, then sandbox.
  lemma ScalarsByLayer(sandbox: SandboxSpec, template: Option<TemplateSpec>, defaults: Option<Defaults>)
    ensures var r := ScalarsOver(sandbox, template, defaults);
            var t := if template.Some? then template.value else EMPTY_SPEC;
            var d := if defaults.Some? then defaults.value else Defaults("", None, "");
            && Some(r.image) == Deepest([Some(ImageSpec(d.image, "", "")), t.image, sandbox.image])
            && r.resources == Deepest([d.resources, t.resources, sandbox.resources])
            && Some(r.mountPath) == Deepest([Some("/workspace"), PathSet(t.storage), PathSet(sandbox.storage)])
            && r.runtimeClass == Deepest([t.runtimeClass, sandbox.runtimeClass])
            && Some(r.serviceAccount) == Deepest([Some(""), NameSet(t.serviceAccount), NameSet(sandbox.serviceAccount)])
            && (r.privileged <==> Deepest([Some(false), t.security, sandbox.security]) == Some(true))
  {
    var t := if template.Some? then template.value else EMPTY_SPEC;
    var d := if defaults.Some? then defaults.value else Defaults("", None, "");
    DeepestOfThree(Some(ImageSpec(d.image, "", "")), t.image, sandbox.image);
    DeepestOfThree(d.resources, t.resources, sandbox.resources);
    DeepestOfThree(Some("/workspace"), PathSet(t.storage), PathSet(sandbox.storage));
    DeepestOfTwo(t.runtimeClass, sandbox.runtimeClass);
    DeepestOfThree(Some(""), NameSet(t.serviceAccount), NameSet(sandbox.serviceAccount));
    DeepestOfThree(Some(false), t.security, sandbox.security);
  }

  lemma DeepestOfTwo<T>(a: Option<T>, b: Option<T>)
    ensures Deepest([a, b]) == if b.Some? then b else a
  {
    assert [a, b][..1] == [a] && [a][..0] == [];
    assert Deepest([a]) == a;
  }

  lemma DeepestOfThree<T>(a: Option<T>, b: Option<T>, c: Option<T>)
    ensures Deepest([a, b, c]) == if c.Some? then c else if b.Some? then b else a
  {
    assert [a, b, c][..2] == [a, b];
    DeepestOfTwo(a, b);
  }

  lemma DeepestSnoc<T>(front: seq<Option<T>>, last: Option<T>)
    ensures Deepest(front + [last]) == if last.Some? then last else Deepest(front)
  {
    assert (front + [last])[..|front|] == front;
  }

  lemma {:induction false} DeepestCons<T>(first: Option<T>, rest: seq<Option<T>>)
    ensures Deepest([first] + rest) == if Deepest(rest).Some? then Deepest(rest) else first
  {
    if rest == [] {
      assert [first] + rest == [] + [first];
      DeepestSnoc([], first);
    } else {
      var front, last := rest[..|rest| - 1], rest[|rest| - 1];
      assert rest == front + [last] && [first] + rest == ([first] + front) + [last];
      DeepestCons(first, front);
      DeepestSnoc(front, last);
      DeepestSnoc([first] + front, last);
    }
  }

  // A column of a chain with the default before it and the sandbox's own value after it.
  lemma DeepestLayer<T>(base: Option<T>, column: seq<Option<T>>, own: Option<T>)
    ensures Deepest([base] + column + [own]) ==
              if own.Some? then own else if Deepest(column).Some? then Deepest(column) else base
  {
    DeepestSnoc([base] + column, own);
    DeepestCons(base, column);
  }

  function ImageSet(image: Option<ImageSpec>): Option<Value> {
    if image.None? then None else Some(ImageValue(image.value))
  }

  // The fields whose three layers are of one kind.
  predicate Layered(f: ScalarField) {
    f.Image? || f.Resources? || f.RuntimeClass? || f.Security?
  }

  // What the pod runs with, what the sandbox itself sets, and what the controller falls back to.
  function PodScalar(f: ScalarField, r: Scalars): Option<Value>
    requires Layered(f)
  {
    match f
    case Image => Some(ImageValue(r.image))
    case Resources => BlobValue(r.resources)
    case RuntimeClass => BlobValue(r.runtimeClass)
    case Security => Some(FlagValue(r.privileged))
  }

  function OwnScalar(f: ScalarField, sandbox: SandboxSpec): Option<Value>
    requires Layered(f)
  {
    match f
    case Image => ImageSet(sandbox.image)
    case Resources => BlobValue(sandbox.resources)
    case RuntimeClass => BlobValue(sandbox.runtimeClass)
    case Security => Flag(sandbox.security)
  }

  function DefaultScalar(f: ScalarField, d: Defaults): Option<Value>
    requires Layered(f)
  {
    match f
    case Image => Some(ImageValue(ImageSpec(d.image, "", "")))
    case Resources => BlobValue(d.resources)
    case RuntimeClass => None
    case Security => Some(FlagValue(false))
  }

  lemma PodScalarIsInnermost(f: ScalarField, t: TemplateSpec, sandbox: SandboxSpec, d: Defaults)
    requires Layered(f)
    ensures PodScalar(f, ScalarsOver(sandbox, Some(t), Some(d))) ==
              if OwnScalar(f, sandbox).Some? then OwnScalar(f, sandbox)
              else if Scalar(f, t).Some? then Scalar(f, t)
              else DefaultScalar(f, d)
  {
  }

  // The whole way from the controller's defaults over the root and its children to the sandbox.
  lemma {:induction false} PodScalarsAlongChain(
      f: ScalarField, chain: seq<TemplateSpec>, sandbox: SandboxSpec, d: Defaults)
    requires Layered(f) && chain != []
    ensures PodScalar(f, ScalarsOver(sandbox, Some(Fold(chain)), Some(d))) ==
              Deepest([DefaultScalar(f, d)] + ScalarColumn(f, chain) + [OwnScalar(f, sandbox)])
  {
    PodScalarIsInnermost(f, Fold(chain), sandbox, d);
    ScalarsAreDeepest(f, chain);
    DeepestLayer(DefaultScalar(f, d), ScalarColumn(f, chain), OwnScalar(f, sandbox));
  }

  // The service account is the sandbox's or the root's, whatever the children in between say.
  lemma {:induction false} PodServiceAccount(chain: seq<TemplateSpec>, sandbox: SandboxSpec, d: Option<Defaults>)
    requires chain != []
    ensures ScalarsOver(sandbox, Some(Fold(chain)), d).serviceAccount ==
              if sandbox.serviceAccount == "" then chain[0].serviceAccount else sandbox.serviceAccount
  {
    RootFields(chain);
  }

  function PathColumn(chain: seq<TemplateSpec>): seq<Option<string>> {
    if chain == [] then []
    else PathColumn(chain[..|chain| - 1]) + [PathSet(chain[|chain| - 1].storage)]
  }

  lemma {:induction false} FoldedPath(chain: seq<TemplateSpec>)
    requires chain != []
    ensures Fold(chain).storage.None? ==> Deepest(PathColumn(chain)).None?
    ensures PathSet(Fold(chain).storage).Some? ==> Deepest(PathColumn(chain)) == PathSet(Fold(chain).storage)
  {
    var front, c := chain[..|chain| - 1], chain[|chain| - 1];
    assert chain == front + [c];
    DeepestSnoc(PathColumn(front), PathSet(c.storage));
    if front != [] {
      FoldedPath(front);
      FoldSnoc(front, c);
    } else {
      FoldOne(c);
    }
  }

  // The mount path is the odd one out: storage is overridden as a whole, so a template that sets
  // storage without a path drops the path its parents set.
  lemma InheritedMountPath(chain: seq<TemplateSpec>, sandbox: SandboxSpec, defaults: Option<Defaults>)
    requires chain != [] && PathSet(sandbox.storage).None?
    ensures var deepest := Deepest([Some("/workspace")] + PathColumn(chain));
            var storage := Fold(chain).storage;
            Some(ScalarsOver(sandbox, Some(Fold(chain)), defaults).mountPath) == deepest <==>
              (storage.Some? && storage.value.mountPath == "" ==> deepest == Some("/workspace"))
  {
    DeepestCons(Some("/workspace"), PathColumn(chain));
    FoldedPath(chain);
  }
}
