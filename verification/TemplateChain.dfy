/** Resolving a template reference to its inheritance chain. */
module TemplateChain {
  import opened Wrappers
  import opened Api
  import opened TemplateMerge

  const MAX_INHERITANCE_DEPTH: nat := 10

  /******* The template store *******/

  datatype ObjectKey = Namespaced(namespace: string, name: string) | ClusterWide(name: string)

  datatype Stored = Stored(spec: TemplateSpec, resourceVersion: string)

  // `failing` are the objects whose Get fails for another reason than not being there.
  datatype Store = Store(templates: map<ObjectKey, Stored>, failing: set<ObjectKey>)

  // Object names hold no slash.
  ghost predicate ValidStore(store: Store) {
    forall key | key in store.templates :: '/' !in key.name
  }

  datatype ChainError =
    | DepthExceeded
    | Circular(spelling: string)
    | UnknownKind(kind: string)
    | NotFound(key: ObjectKey)
    | GetFailed(key: ObjectKey)
    | EmptyChain

  // An empty kind means SandboxTemplate, and an empty namespace the sandbox's own.
  function KeyOf(ref: Reference, sandboxNamespace: string): Option<ObjectKey> {
    var kind := if ref.kind == "" then "SandboxTemplate" else ref.kind;
    if kind == "SandboxTemplate" then
      Some(Namespaced(if ref.namespace == "" then sandboxNamespace else ref.namespace, ref.name))
    else if kind == "ClusterSandboxTemplate" then Some(ClusterWide(ref.name))
    else None
  }

  function Fetch(store: Store, ref: Reference, sandboxNamespace: string): Result<Stored, ChainError> {
    match KeyOf(ref, sandboxNamespace)
    case None => Err(UnknownKind(ref.kind))
    case Some(key) =>
      if key in store.failing then Err(GetFailed(key))
      else if key !in store.templates then Err(NotFound(key))
      else Ok(store.templates[key])
  }

  // How a reference is written: circularity is detected on this, not on the object it names.
  function Spelling(ref: Reference): string {
    ref.kind + "/" + ref.namespace + "/" + ref.name
  }

  datatype ResolvedEntry = ResolvedEntry(name: string, resourceVersion: string, spec: TemplateSpec)

  function EntryOf(ref: Reference, t: Stored): ResolvedEntry {
    ResolvedEntry(ref.name, t.resourceVersion, t.spec)
  }

  /******* Reference definition: following InheritsFrom *******/

  // Following the parents of `ref` reaches a parentless template as the n-th found one.
  ghost predicate Reaches(store: Store, ns: string, ref: Reference, n: nat)
    decreases n
  {
    && n >= 1
    && Fetch(store, ref, ns).Ok?
    && match Fetch(store, ref, ns).value.spec.inheritsFrom
       case None => n == 1
       case Some(parent) => n >= 2 && Reaches(store, ns, parent, n - 1)
  }

  // The templates on the way, root first.
  ghost function Path(store: Store, ns: string, ref: Reference, n: nat): seq<ResolvedEntry>
    requires Reaches(store, ns, ref, n)
    decreases n
  {
    var t := Fetch(store, ref, ns).value;
    (match t.spec.inheritsFrom
     case None => []
     case Some(parent) => Path(store, ns, parent, n - 1))
    + [EntryOf(ref, t)]
  }

  ghost function PathKeys(store: Store, ns: string, ref: Reference, n: nat): seq<ObjectKey>
    requires Reaches(store, ns, ref, n)
    decreases n
  {
    var t := Fetch(store, ref, ns).value;
    (match t.spec.inheritsFrom
     case None => []
     case Some(parent) => PathKeys(store, ns, parent, n - 1))
    + [KeyOf(ref, ns).value]
  }

  // The n-th reference met on following parents from `ref`, which is the one before the first.
  ghost function Ancestor(store: Store, ns: string, ref: Reference, n: nat): Option<Reference>
    decreases n
  {
    if n == 0 then Some(ref)
    else match Fetch(store, ref, ns)
      case Err(_) => None
      case Ok(t) =>
        if t.spec.inheritsFrom.None? then None else Ancestor(store, ns, t.spec.inheritsFrom.value, n - 1)
  }

  ghost predicate FailsAt(store: Store, ns: string, ref: Reference, n: nat, error: ChainError) {
    Ancestor(store, ns, ref, n).Some? && Fetch(store, Ancestor(store, ns, ref, n).value, ns) == Err(error)
  }

  // Which object a reference names, and what fetching it answers.
  lemma FetchedObject(store: Store, ref: Reference, ns: string)
    ensures var own := Namespaced(if ref.namespace == "" then ns else ref.namespace, ref.name);
            match ref.kind
            case "" => Fetches(store, own, Fetch(store, ref, ns))
            case "SandboxTemplate" => Fetches(store, own, Fetch(store, ref, ns))
            case "ClusterSandboxTemplate" => Fetches(store, ClusterWide(ref.name), Fetch(store, ref, ns))
            case _ => Fetch(store, ref, ns) == Err(UnknownKind(ref.kind))
  {
  }

  predicate Fetches(store: Store, key: ObjectKey, r: Result<Stored, ChainError>) {
    && (r == Err(GetFailed(key)) <==> key in store.failing)
    && (r == Err(NotFound(key)) <==> key !in store.failing && key !in store.templates)
    && (r.Ok? <==> key !in store.failing && key in store.templates)
    && (r.Ok? ==> r.value == store.templates[key])
  }

  // Beyond an ancestor that fails there is none, and before it none fails or ends the chain.
  lemma {:induction false} FailsOnce(store: Store, ns: string, ref: Reference, m: nat, n: nat, error: ChainError)
    requires FailsAt(store, ns, ref, m, error)
    ensures Ancestor(store, ns, ref, n).Some? <==> n <= m
    ensures forall e :: FailsAt(store, ns, ref, n, e) ==> n == m && e == error
    ensures !Reaches(store, ns, ref, n)
    decreases m
  {
    if m > 0 && n > 0 {
      var parent := Fetch(store, ref, ns).value.spec.inheritsFrom.value;
      FailsOnce(store, ns, parent, m - 1, n - 1, error);
      assert forall e :: FailsAt(store, ns, ref, n, e) ==> FailsAt(store, ns, parent, n - 1, e);
    }
  }

  lemma {:induction false} ReachesOnce(store: Store, ns: string, ref: Reference, m: nat, n: nat)
    requires Reaches(store, ns, ref, m) && Reaches(store, ns, ref, n)
    ensures m == n
    decreases m
  {
    match Fetch(store, ref, ns).value.spec.inheritsFrom
    case None =>
    case Some(parent) => ReachesOnce(store, ns, parent, m - 1, n - 1);
  }

  lemma SameObjectReaches(store: Store, ns: string, a: Reference, b: Reference, n: nat)
    requires KeyOf(a, ns) == KeyOf(b, ns) && KeyOf(a, ns).Some? && Reaches(store, ns, a, n)
    ensures Reaches(store, ns, b, n)
  {
  }

  // The k-th key of a path, from the root, is that of a reference that reaches k + 1 templates.
  lemma {:induction false} PathKeyAt(store: Store, ns: string, ref: Reference, n: nat, k: nat) returns (at: Reference)
    requires Reaches(store, ns, ref, n) && k < n
    ensures |PathKeys(store, ns, ref, n)| == n
    ensures Reaches(store, ns, at, k + 1) && KeyOf(at, ns) == Some(PathKeys(store, ns, ref, n)[k])
    decreases n
  {
    at := ref;
    if n > 1 {
      var parent := Fetch(store, ref, ns).value.spec.inheritsFrom.value;
      var above := PathKeyAt(store, ns, parent, n - 1, if k < n - 1 then k else 0);
      if k < n - 1 {
        at := above;
      }
    }
  }

  lemma TwoKeysDiffer(store: Store, ns: string, ref: Reference, n: nat, i: nat, j: nat)
    requires Reaches(store, ns, ref, n) && i < j < n == |PathKeys(store, ns, ref, n)|
    ensures PathKeys(store, ns, ref, n)[i] != PathKeys(store, ns, ref, n)[j]
  {
    var keys := PathKeys(store, ns, ref, n);
    var a := PathKeyAt(store, ns, ref, n, i);
    var b := PathKeyAt(store, ns, ref, n, j);
    if keys[i] == keys[j] {
      SameObjectReaches(store, ns, a, b, i + 1);
      ReachesOnce(store, ns, b, i + 1, j + 1);
    }
  }

  // A chain that ends never meets a stored template twice.
  lemma PathIsDistinct(store: Store, ns: string, ref: Reference, n: nat)
    requires Reaches(store, ns, ref, n)
    ensures var keys := PathKeys(store, ns, ref, n);
            |keys| == n && forall i, j | 0 <= i < j < n :: keys[i] != keys[j]
  {
    var _ := PathKeyAt(store, ns, ref, n, 0);
    var keys := PathKeys(store, ns, ref, n);
    forall i, j | 0 <= i < j < n ensures keys[i] != keys[j] {
      TwoKeysDiffer(store, ns, ref, n, i, j);
    }
  }

  /******* Spellings *******/

  lemma SplitAtFirstSlash(a: string, b: string, x: string, y: string)
    requires a + "/" + b == x + "/" + y && '/' !in a && '/' !in x
    ensures a == x && b == y
  {
    var s := a + "/" + b;
    assert s[|a|] == '/' && s[|x|] == '/';
    assert a == s[..|a|] && x == s[..|x|];
    assert b == s[|a| + 1..] && y == s[|x| + 1..];
  }

  lemma SplitAtLastSlash(a: string, b: string, x: string, y: string)
    requires a + "/" + b == x + "/" + y && '/' !in b && '/' !in y
    ensures a == x && b == y
  {
    var s := a + "/" + b;
    assert s[|a|] == '/' && s[|x|] == '/';
    assert a == s[..|a|] && x == s[..|x|];
    assert b == s[|a| + 1..] && y == s[|x| + 1..];
  }

  // References to stored templates that are spelled alike are the same reference.
  lemma SpellingIsInjective(store: Store, ns: string, a: Reference, b: Reference)
    requires ValidStore(store) && Fetch(store, a, ns).Ok? && Fetch(store, b, ns).Ok?
    requires Spelling(a) == Spelling(b)
    ensures a == b
  {
    assert '/' !in a.name && '/' !in b.name;
    SplitAtLastSlash(a.kind + "/" + a.namespace, a.name, b.kind + "/" + b.namespace, b.name);
    assert '/' !in "SandboxTemplate" && '/' !in "ClusterSandboxTemplate";
    SplitAtFirstSlash(a.kind, a.namespace, b.kind, b.namespace);
  }

  /******* The resolver *******/

  // `trail` is a run of references, each found and naming the next as its parent, up to `ref`.
  ghost predicate Trail(store: Store, ns: string, trail: seq<Reference>, ref: Reference) {
    forall i | 0 <= i < |trail| :: Linked(store, ns, trail, ref, i)
  }

  ghost predicate Linked(store: Store, ns: string, trail: seq<Reference>, ref: Reference, i: nat)
    requires i < |trail|
  {
    Names(store, ns, trail[i], if i == |trail| - 1 then ref else trail[i + 1])
  }

  ghost predicate Names(store: Store, ns: string, child: Reference, parent: Reference) {
    Fetch(store, child, ns).Ok? && Fetch(store, child, ns).value.spec.inheritsFrom == Some(parent)
  }

  lemma {:induction false} TrailReaches(store: Store, ns: string, trail: seq<Reference>, ref: Reference, i: nat, n: nat)
    requires Trail(store, ns, trail, ref) && i < |trail| && Reaches(store, ns, ref, n)
    ensures Reaches(store, ns, trail[i], n + |trail| - i)
    decreases |trail| - i
  {
    assert Linked(store, ns, trail, ref, i);
    if i + 1 < |trail| {
      TrailReaches(store, ns, trail, ref, i + 1, n);
    }
  }

  lemma TrailGrows(store: Store, ns: string, trail: seq<Reference>, ref: Reference, parent: Reference)
    requires Trail(store, ns, trail, ref) && Names(store, ns, ref, parent)
    ensures Trail(store, ns, trail + [ref], parent)
    ensures (set q | q in trail + [ref] :: Spelling(q)) == (set q | q in trail :: Spelling(q)) + {Spelling(ref)}
  {
    var longer := trail + [ref];
    forall i | 0 <= i < |longer|
      ensures Linked(store, ns, longer, parent, i)
    {
      if i < |trail| {
        assert Linked(store, ns, trail, ref, i);
      }
    }
  }

  // A spelling met before means the chain never ends.
  lemma RepeatedSpellingNeverEnds(store: Store, ns: string, trail: seq<Reference>, ref: Reference, i: nat, n: nat)
    requires ValidStore(store) && Trail(store, ns, trail, ref) && i < |trail|
    requires Spelling(trail[i]) == Spelling(ref)
    ensures !Reaches(store, ns, ref, n)
  {
    if Reaches(store, ns, ref, n) {
      assert Linked(store, ns, trail, ref, i);
      SpellingIsInjective(store, ns, trail[i], ref);
      TrailReaches(store, ns, trail, ref, i, n);
      ReachesOnce(store, ns, ref, n, n + |trail| - i);
    }
  }

  ghost predicate EndsWithin(store: Store, ns: string, ref: Reference, limit: nat) {
    exists n: nat :: n <= limit && Reaches(store, ns, ref, n)
  }

  // Following parents meets a spelling again: one on the trail, or an earlier ancestor's.
  ghost predicate Repeats(
      store: Store, ns: string, trail: seq<Reference>, ref: Reference, limit: nat, spelling: string)
  {
    exists n: nat :: n < limit && RepeatsAt(store, ns, trail, ref, n, spelling)
  }

  ghost predicate RepeatsAt(
      store: Store, ns: string, trail: seq<Reference>, ref: Reference, n: nat, spelling: string)
  {
    && Spelled(store, ns, ref, n, spelling)
    && (|| (exists q :: q in trail && Spelling(q) == spelling)
        || exists i: nat :: i < n && Spelled(store, ns, ref, i, spelling))
  }

  ghost predicate Spelled(store: Store, ns: string, ref: Reference, n: nat, spelling: string) {
    Ancestor(store, ns, ref, n).Some? && Spelling(Ancestor(store, ns, ref, n).value) == spelling
  }

  // What resolving may answer: the path, exactly when it ends within `limit` templates; a cycle
  // only where following parents never ends and a spelling recurs; too great a depth only where
  // there are more than `limit` references to follow; and else the failure it met.
  ghost predicate Exact(store: Store, ns: string, trail: seq<Reference>, ref: Reference, limit: nat,
                        r: Result<seq<ResolvedEntry>, ChainError>)
  {
    && (r.Ok? <==> EndsWithin(store, ns, ref, limit))
    && (forall n: nat :: r.Ok? && Reaches(store, ns, ref, n) ==> r.value == Path(store, ns, ref, n))
    && (r.Err? ==> Explained(store, ns, trail, ref, limit, r.error))
  }

  ghost predicate Explained(
      store: Store, ns: string, trail: seq<Reference>, ref: Reference, limit: nat, error: ChainError)
  {
    match error
    case DepthExceeded => Ancestor(store, ns, ref, limit).Some?
    case Circular(spelling) =>
      (forall n: nat :: !Reaches(store, ns, ref, n)) && Repeats(store, ns, trail, ref, limit, spelling)
    case _ => exists n: nat :: n < limit && FailsAt(store, ns, ref, n, error)
  }

  function Extend(above: Result<seq<ResolvedEntry>, ChainError>, entry: ResolvedEntry)
    : Result<seq<ResolvedEntry>, ChainError>
  {
    match above
    case Err(error) => Err(error)
    case Ok(chain) => Ok(chain + [entry])
  }

  lemma AncestorOfParent(store: Store, ns: string, ref: Reference, parent: Reference, n: nat)
    requires Names(store, ns, ref, parent)
    ensures Ancestor(store, ns, ref, n + 1) == Ancestor(store, ns, parent, n)
  {
  }

  lemma ChildRepeats(
      store: Store, ns: string, trail: seq<Reference>, ref: Reference, parent: Reference, n: nat, spelling: string)
    requires Names(store, ns, ref, parent) && RepeatsAt(store, ns, trail + [ref], parent, n, spelling)
    ensures RepeatsAt(store, ns, trail, ref, n + 1, spelling)
  {
    AncestorOfParent(store, ns, ref, parent, n);
    if q :| q in trail + [ref] && Spelling(q) == spelling {
      if q !in trail {
        assert q == ref && Spelled(store, ns, ref, 0, spelling);
      }
    } else {
      var i: nat :| i < n && Spelled(store, ns, parent, i, spelling);
      AncestorOfParent(store, ns, ref, parent, i);
      assert Spelled(store, ns, ref, i + 1, spelling);
    }
  }

  lemma ChildExplained(store: Store, ns: string, trail: seq<Reference>, ref: Reference, parent: Reference,
                       limit: nat, error: ChainError)
    requires limit > 0 && Names(store, ns, ref, parent)
    requires Explained(store, ns, trail + [ref], parent, limit - 1, error)
    ensures Explained(store, ns, trail, ref, limit, error)
  {
    match error
    case DepthExceeded => AncestorOfParent(store, ns, ref, parent, limit - 1);
    case Circular(spelling) =>
      forall n: nat ensures !Reaches(store, ns, ref, n) {
        assert n > 0 ==> !Reaches(store, ns, parent, n - 1);
      }
      var n: nat :| n < limit - 1 && RepeatsAt(store, ns, trail + [ref], parent, n, spelling);
      ChildRepeats(store, ns, trail, ref, parent, n, spelling);
    case _ =>
      var n: nat :| n < limit - 1 && FailsAt(store, ns, parent, n, error);
      AncestorOfParent(store, ns, ref, parent, n);
      assert FailsAt(store, ns, ref, n + 1, error);
  }

  // An exact answer for the parent, extended by the child, is exact for the child.
  lemma ChildExact(store: Store, ns: string, trail: seq<Reference>, ref: Reference, parent: Reference, limit: nat,
                   above: Result<seq<ResolvedEntry>, ChainError>)
    requires limit > 0 && Names(store, ns, ref, parent)
    requires Exact(store, ns, trail + [ref], parent, limit - 1, above)
    ensures Exact(store, ns, trail, ref, limit, Extend(above, EntryOf(ref, Fetch(store, ref, ns).value)))
  {
    var r := Extend(above, EntryOf(ref, Fetch(store, ref, ns).value));
    if r.Ok? {
      var n: nat :| n <= limit - 1 && Reaches(store, ns, parent, n);
      assert Reaches(store, ns, ref, n + 1);
    } else {
      ChildExplained(store, ns, trail, ref, parent, limit, r.error);
    }
    forall n: nat | Reaches(store, ns, ref, n)
      ensures n >= 1 && Reaches(store, ns, parent, n - 1)
      ensures r.Ok? ==> r.value == Path(store, ns, ref, n)
    {
    }
  }

  lemma RootExact(store: Store, ns: string, trail: seq<Reference>, ref: Reference, limit: nat)
    requires limit > 0 && Fetch(store, ref, ns).Ok? && Fetch(store, ref, ns).value.spec.inheritsFrom.None?
    ensures Exact(store, ns, trail, ref, limit, Ok([EntryOf(ref, Fetch(store, ref, ns).value)]))
  {
    assert Reaches(store, ns, ref, 1);
  }

  lemma FailureExact(store: Store, ns: string, trail: seq<Reference>, ref: Reference, limit: nat)
    requires limit > 0 && Fetch(store, ref, ns).Err?
    ensures Exact(store, ns, trail, ref, limit, Err(Fetch(store, ref, ns).error))
  {
    assert FailsAt(store, ns, ref, 0, Fetch(store, ref, ns).error);
  }

  lemma CircularExact(store: Store, ns: string, trail: seq<Reference>, ref: Reference, limit: nat)
    requires ValidStore(store) && Trail(store, ns, trail, ref) && limit > 0
    requires exists q :: q in trail && Spelling(q) == Spelling(ref)
    ensures Exact(store, ns, trail, ref, limit, Err(Circular(Spelling(ref))))
  {
    var q :| q in trail && Spelling(q) == Spelling(ref);
    var i :| 0 <= i < |trail| && trail[i] == q;
    forall n: nat ensures !Reaches(store, ns, ref, n) {
      RepeatedSpellingNeverEnds(store, ns, trail, ref, i, n);
    }
    assert RepeatsAt(store, ns, trail, ref, 0, Spelling(ref));
  }

  ghost predicate SpelledApart(store: Store, ns: string, ref: Reference, n: nat) {
    forall i: nat, j: nat :: i < j <= n ==> SpellingOf(store, ns, ref, i) != SpellingOf(store, ns, ref, j)
  }

  ghost function SpellingOf(store: Store, ns: string, ref: Reference, n: nat): Option<string> {
    match Ancestor(store, ns, ref, n)
    case None => None
    case Some(at) => Some(Spelling(at))
  }

  lemma RecurrenceIsNotApart(store: Store, ns: string, ref: Reference, m: nat, n: nat, spelling: string)
    requires RepeatsAt(store, ns, [], ref, m, spelling) && m <= n
    ensures !SpelledApart(store, ns, ref, n)
  {
    var i: nat :| i < m && Spelled(store, ns, ref, i, spelling);
    assert SpellingOf(store, ns, ref, i) == SpellingOf(store, ns, ref, m);
  }

  // Unless a spelling recurs on the way to it, a failure within the limit is what is answered.
  lemma FailureIsReported(store: Store, ns: string, ref: Reference, limit: nat, n: nat, error: ChainError,
                          r: Result<seq<ResolvedEntry>, ChainError>)
    requires Exact(store, ns, [], ref, limit, r) && n < limit
    requires FailsAt(store, ns, ref, n, error) && SpelledApart(store, ns, ref, n)
    ensures r == Err(error)
  {
    forall m: nat ensures !Reaches(store, ns, ref, m) {
      FailsOnce(store, ns, ref, n, m, error);
    }
    FailsOnce(store, ns, ref, n, limit, error);
    if r.error.Circular? {
      var m: nat :| m < limit && RepeatsAt(store, ns, [], ref, m, r.error.spelling);
      FailsOnce(store, ns, ref, n, m, error);
      RecurrenceIsNotApart(store, ns, ref, m, n, r.error.spelling);
    } else {
      var m: nat :| m < limit && FailsAt(store, ns, ref, m, r.error);
      FailsOnce(store, ns, ref, n, m, error);
    }
  }

  datatype ResolvedTemplate = ResolvedTemplate(name: string, resourceVersion: string, spec: TemplateSpec)

  function Specs(chain: seq<ResolvedEntry>): seq<TemplateSpec> {
    seq(|chain|, i requires 0 <= i < |chain| => chain[i].spec)
  }

  function Finish(chain: Result<seq<ResolvedEntry>, ChainError>): Result<Option<ResolvedTemplate>, ChainError> {
    match chain
    case Err(error) => Err(error)
    case Ok(entries) =>
      if entries == [] then Err(EmptyChain)
      else
        var direct := entries[|entries| - 1];
        Ok(Some(ResolvedTemplate(direct.name, direct.resourceVersion, Fold(Specs(entries)))))
  }

  lemma PathEndsInReferenced(store: Store, ns: string, ref: Reference, n: nat)
    requires Reaches(store, ns, ref, n)
    ensures var path := Path(store, ns, ref, n);
            path != [] && path[|path| - 1] == EntryOf(ref, Fetch(store, ref, ns).value)
  {
  }

  // Resolving succeeds exactly when the chain ends within ten templates, and then merges the
  // whole path, naming the referenced template itself.
  lemma ResolvedExactly(store: Store, ns: string, ref: Reference, chain: Result<seq<ResolvedEntry>, ChainError>)
    requires Exact(store, ns, [], ref, MAX_INHERITANCE_DEPTH, chain)
    ensures Finish(chain).Ok? <==> EndsWithin(store, ns, ref, MAX_INHERITANCE_DEPTH)
    ensures forall n: nat | Finish(chain).Ok? && Reaches(store, ns, ref, n) ::
              Finish(chain) == Finished(store, ns, ref, n)
  {
    forall n: nat | chain.Ok? && Reaches(store, ns, ref, n)
      ensures Finish(chain) == Finished(store, ns, ref, n) && chain.value != []
    {
      PathEndsInReferenced(store, ns, ref, n);
    }
    if chain.Ok? {
      var n: nat :| n <= MAX_INHERITANCE_DEPTH && Reaches(store, ns, ref, n);
      assert chain.value != [];
    }
  }

  ghost function Finished(store: Store, ns: string, ref: Reference, n: nat)
    : Result<Option<ResolvedTemplate>, ChainError>
    requires Reaches(store, ns, ref, n)
  {
    Ok(Some(ResolvedTemplate(
      ref.name, Fetch(store, ref, ns).value.resourceVersion, Fold(Specs(Path(store, ns, ref, n))))))
  }

  class TemplateResolver {
    const store: Store
    var visited: set<string>

    constructor (store: Store)
      ensures this.store == store
    {
      this.store := store;
      visited := {};
    }

    method ResolveChain(ref: Reference, ns: string, depth: nat, ghost trail: seq<Reference>)
      returns (r: Result<seq<ResolvedEntry>, ChainError>)
      requires ValidStore(store) && depth == |trail| <= MAX_INHERITANCE_DEPTH
      requires Trail(store, ns, trail, ref)
      requires visited == set q | q in trail :: Spelling(q)
      modifies this
      ensures Exact(store, ns, trail, ref, MAX_INHERITANCE_DEPTH - depth, r)
      decreases MAX_INHERITANCE_DEPTH - depth
    {
      if depth >= MAX_INHERITANCE_DEPTH {
        return Err(DepthExceeded);
      }
      var key := Spelling(ref);
      if key in visited {
        CircularExact(store, ns, trail, ref, MAX_INHERITANCE_DEPTH - depth);
        return Err(Circular(key));
      }
      visited := visited + {key};
      var fetched := Fetch(store, ref, ns);
      if fetched.Err? {
        FailureExact(store, ns, trail, ref, MAX_INHERITANCE_DEPTH - depth);
        return Err(fetched.error);
      }
      var entry := EntryOf(ref, fetched.value);
      if fetched.value.spec.inheritsFrom.Some? {
        var parent := fetched.value.spec.inheritsFrom.value;
        TrailGrows(store, ns, trail, ref, parent);
        var above := ResolveChain(parent, ns, depth + 1, trail + [ref]);
        ChildExact(store, ns, trail, ref, parent, MAX_INHERITANCE_DEPTH - depth, above);
        if above.Err? {
          return Err(above.error);
        }
        return Ok(above.value + [entry]);
      }
      RootExact(store, ns, trail, ref, MAX_INHERITANCE_DEPTH - depth);
      return Ok([entry]);
    }

    method Resolve(ref: Option<Reference>, ns: string) returns (r: Result<Option<ResolvedTemplate>, ChainError>)
      requires ValidStore(store)
      modifies this
      ensures ref.None? ==> r == Ok(None)
      ensures ref.Some? ==>
                exists chain :: Exact(store, ns, [], ref.value, MAX_INHERITANCE_DEPTH, chain) && r == Finish(chain)
    {
      if ref.None? {
        return Ok(None);
      }
      visited := {};
      var chain := ResolveChain(ref.value, ns, 0, []);
      if chain.Err? {
        return Err(chain.error);
      }
      if chain.value == [] {
        return Err(EmptyChain);
      }
      var direct := chain.value[|chain.value| - 1];
      var merged := MergeChain(Specs(chain.value));
      return Ok(Some(ResolvedTemplate(direct.name, direct.resourceVersion, merged)));
    }
  }
}
