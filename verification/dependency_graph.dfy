/** The dependency check: every installed package reached from the root is the pinned one, and nothing pinned is left over. */
module DependencyGraphs {
  import opened Collections
  import opened SnapshotGrammar
  import opened Texts
  import opened Wrappers

  const MAXIMUM_NODES := 512
  const MAXIMUM_REFERENCE := 1024

  /** A pinned node: dependency name to snapshot reference. */
  datatype Node = Node(dependencies: map<string, string>, optional: map<string, string>)

  /**
   The fields of an installed `package.json` that are read; None is a value of another kind. A field that is absent has
   no entries. An entry of `meta` is an object that says whether its peer is optional.
   */
  datatype RawManifest = RawManifest(name: Option<string>, version: Option<string>,
                                     dependencies: Option<map<string, Option<string>>>,
                                     optionalDependencies: Option<map<string, Option<string>>>,
                                     peerDependencies: Option<seq<(string, Option<string>)>>,
                                     meta: Option<seq<(string, Option<bool>)>>)
  datatype Manifest = Manifest(name: string, version: string, required: set<string>, optional: set<string>, peers: seq<string>)

  /** The installed tree: the manifest at a path, and where a dependency resolves from there. */
  datatype Installed = Installed(manifests: map<string, RawManifest>, resolve: (string, string) -> Option<string>)

  datatype Context = Context(key: string, path: string)

  // ---------------------------------------------------------------------------------- manifests

  function Names(s: seq<string>): set<string> {
    set n | n in s
  }

  function KeysOf<T>(entries: seq<(string, T)>): seq<string> {
    if entries == [] then [] else [entries[0].0] + KeysOf(entries[1..])
  }

  function OptionalMeta(meta: seq<(string, Option<bool>)>): set<string> {
    set m | m in meta && m.1 == Some(true) :: m.0
  }

  /** A dependency's value: a string that is neither empty nor too long. */
  predicate IsReference(value: Option<string>) {
    value.Some? && 0 < |value.value| <= MAXIMUM_REFERENCE
  }

  /** `dependencyMap`. */
  predicate IsDependencyMap(entries: map<string, Option<string>>) {
    |entries| <= MAXIMUM_NODES && forall n | n in entries :: IsName(n) && IsReference(entries[n])
  }

  /** The same of entries whose order is kept. */
  predicate AreDependencies(entries: seq<(string, Option<string>)>) {
    |entries| <= MAXIMUM_NODES && forall e | e in entries :: IsName(e.0) && IsReference(e.1)
  }

  /** Names of peers, each with an object. */
  predicate IsMeta(meta: seq<(string, Option<bool>)>) {
    |meta| <= MAXIMUM_NODES && forall m | m in meta :: IsName(m.0) && m.1.Some?
  }

  /** Adds names in order, each once, as a `Set` keeps them. */
  function AddNames(names: seq<string>, more: seq<string>): seq<string>
    decreases |more|
  {
    if more == [] then names else AddNames(if more[0] in names then names else names + [more[0]], more[1..])
  }

  predicate FieldsAreValid(raw: RawManifest) {
    && raw.name.Some? && IsName(raw.name.value) && raw.version.Some? && IsVersion(raw.version.value)
    && raw.dependencies.Some? && IsDependencyMap(raw.dependencies.value)
    && raw.optionalDependencies.Some? && IsDependencyMap(raw.optionalDependencies.value)
    && raw.peerDependencies.Some? && AreDependencies(raw.peerDependencies.value)
    && raw.meta.Some? && IsMeta(raw.meta.value)
  }

  /** `installedManifest`: peers are required unless something makes them optional. */
  function ReadManifest(raw: RawManifest): Option<Manifest> {
    if !FieldsAreValid(raw) then None
    else
      var peers := AddNames(AddNames([], KeysOf(raw.peerDependencies.value)), KeysOf(raw.meta.value));
      var optional := raw.optionalDependencies.value.Keys + OptionalMeta(raw.meta.value);
      var required := raw.dependencies.value.Keys + Names(peers) - optional;
      if |required| + |optional| <= MAXIMUM_NODES
      then Some(Manifest(raw.name.value, raw.version.value, required, optional, peers)) else None
  }

  lemma {:induction false} AddedNames(names: seq<string>, more: seq<string>)
    ensures Names(AddNames(names, more)) == Names(names) + Names(more)
    decreases |more|
  {
    if more != [] {
      var next := if more[0] in names then names else names + [more[0]];
      AddedNames(next, more[1..]);
      assert more == [more[0]] + more[1..];
      assert Names(next) == Names(names) + {more[0]};
    }
  }

  /**
   The peers are the names of both peer fields, and every one is a required or an optional dependency, so a resolved peer
   always has a pinned edge.
   */
  lemma PeersAreDependencies(raw: RawManifest)
    requires ReadManifest(raw).Some?
    ensures var m := ReadManifest(raw).value;
      && Names(m.peers) == Names(KeysOf(raw.peerDependencies.value)) + Names(KeysOf(raw.meta.value))
      && Names(m.peers) <= m.required + m.optional && m.required !! m.optional
  {
    AddedNames([], KeysOf(raw.peerDependencies.value));
    AddedNames(AddNames([], KeysOf(raw.peerDependencies.value)), KeysOf(raw.meta.value));
  }

  // ---------------------------------------------------------------------------------- one context

  function Edges(node: Node): map<string, string> {
    node.dependencies + node.optional
  }

  /** The dependencies that resolve from this path. */
  function Resolved(installed: Installed, m: Manifest, path: string): set<string> {
    set d | d in m.required + m.optional && installed.resolve(path, d).Some?
  }

  function InsertName(names: seq<string>, name: string): seq<string> {
    if names == [] || NotAfter(name, names[0]) then [name] + names else [names[0]] + InsertName(names[1..], name)
  }

  function SortNames(names: seq<string>): seq<string> {
    if names == [] then [] else InsertName(SortNames(names[..|names| - 1]), names[|names| - 1])
  }

  function Present(names: seq<string>, resolved: set<string>): seq<string> {
    if names == [] then [] else (if names[0] in resolved then [names[0]] else []) + Present(names[1..], resolved)
  }

  /** A template writes `undefined` for an edge that is missing. */
  function Reference(edges: map<string, string>, name: string): string {
    if name in edges then edges[name] else "undefined"
  }

  function PeerContext(names: seq<string>, edges: map<string, string>): string {
    if names == [] then "" else "(" + names[0] + "@" + Reference(edges, names[0]) + ")" + PeerContext(names[1..], edges)
  }

  /** The installed package at this path is the pinned one: identity, dependency sets and peer context. */
  predicate Certified(graph: map<string, Node>, installed: Installed, c: Context) {
    && c.key in graph && c.path in installed.manifests
    && ReadManifest(installed.manifests[c.path]).Some?
    && var m := ReadManifest(installed.manifests[c.path]).value;
       var node := graph[c.key];
       var resolved := Resolved(installed, m, c.path);
       && Snapshot(c.key) == Ok(Identity(m.name, m.version))
       && m.required == node.dependencies.Keys
       && m.required <= resolved
       && m.optional * resolved == node.optional.Keys
       && m.name + "@" + m.version + PeerContext(SortNames(Present(m.peers, resolved)), Edges(node)) == c.key
  }

  function Child(installed: Installed, path: string, dependency: string): string {
    var child := installed.resolve(path, dependency);
    if child.Some? then child.value else ""
  }

  /** The contexts a certified context goes on to. */
  function Targets(graph: map<string, Node>, installed: Installed, c: Context): set<Context> {
    if Certified(graph, installed, c) then
      var m := ReadManifest(installed.manifests[c.path]).value;
      set d | d in Resolved(installed, m, c.path) :: Context(d + "@" + Reference(Edges(graph[c.key]), d), Child(installed, c.path, d))
    else {}
  }

  /** Every target of a certified context has a pinned edge: no reference is ever missing. */
  lemma EdgesAreDefined(graph: map<string, Node>, installed: Installed, c: Context, d: string)
    requires Certified(graph, installed, c)
    requires d in Resolved(installed, ReadManifest(installed.manifests[c.path]).value, c.path)
    ensures d in Edges(graph[c.key])
  {
  }

  // ---------------------------------------------------------------------------------- certificates

  ghost predicate Closed(graph: map<string, Node>, installed: Installed, contexts: set<Context>) {
    forall c | c in contexts :: Targets(graph, installed, c) <= contexts
  }

  ghost predicate AllCertified(graph: map<string, Node>, installed: Installed, contexts: set<Context>) {
    forall c | c in contexts :: Certified(graph, installed, c)
  }

  function Keys(contexts: set<Context>): set<string> {
    set c | c in contexts :: c.key
  }

  /** The pins themselves are well formed: every key and every reference is a snapshot, and every reference is pinned. */
  predicate WellPinned(root: string, graph: map<string, Node>) {
    && 0 < |graph| <= MAXIMUM_NODES && Snapshot(root).Ok?
    && forall key | key in graph ::
      && Snapshot(key).Ok? && References(graph, graph[key].dependencies) && References(graph, graph[key].optional)
      && graph[key].dependencies.Keys !! graph[key].optional.Keys
  }

  predicate References(graph: map<string, Node>, edges: map<string, string>) {
    && |edges| <= MAXIMUM_NODES
    && forall d | d in edges :: IsName(d) && IsReference(Some(edges[d])) && Snapshot(d + "@" + edges[d]).Ok? && d + "@" + edges[d] in graph
  }

  lemma CertifiedIsPinned(graph: map<string, Node>, installed: Installed, c: Context)
    ensures Certified(graph, installed, c) ==> c.key in graph
  {
  }

  lemma KeysGrow(contexts: set<Context>, c: Context)
    ensures Keys(contexts + {c}) == Keys(contexts) + {c.key}
  {
  }

  /** What a successful check has seen: certified contexts from the root, closed under resolved edges, that cover the pins, and no others. */
  ghost predicate Certificate(graph: map<string, Node>, installed: Installed, root: Context, contexts: set<Context>) {
    && root in contexts && |contexts| <= MAXIMUM_NODES
    && AllCertified(graph, installed, contexts)
    && Closed(graph, installed, contexts)
    && Keys(contexts) == graph.Keys
    && forall other | root in other && Closed(graph, installed, other) :: contexts <= other
  }

  /** `visit` and the sets it fills. */
  class DependencyCheck {
    const graph: map<string, Node>
    const installed: Installed
    var visited: set<Context>
    var reached: set<string>

    constructor (graph: map<string, Node>, installed: Installed)
      ensures this.graph == graph && this.installed == installed && visited == {} && reached == {}
    {
      this.graph, this.installed := graph, installed;
      visited, reached := {}, {};
    }

    /** What was visited since then is certified, with all its targets visited. */
    ghost predicate Finished(since: set<Context>)
      reads this
    {
      forall c | c in visited && c !in since :: Certified(graph, installed, c) && Targets(graph, installed, c) <= visited
    }

    ghost predicate Valid()
      reads this
    {
      reached == Keys(visited) && |visited| <= MAXIMUM_NODES
    }

    /** `path` is the chain of visits still under way: its length is the depth, and all of it is visited. */
    method Visit(c: Context, depth: nat, ghost path: set<Context>) returns (ok: bool)
      requires Valid() && path <= visited && |path| == depth
      modifies this
      ensures Valid() && old(visited) <= visited
      ensures ok ==> c in visited && Finished(old(visited))
      ensures forall all | c in all && old(visited) <= all && Closed(graph, installed, all) :: visited <= all
      ensures forall all | c in all && old(visited) <= all && Closed(graph, installed, all) && AllCertified(graph, installed, all) && |all| <= MAXIMUM_NODES :: ok
      decreases MAXIMUM_NODES - |visited|, 1
    {
      hide Certified, Targets, Keys;
      SubsetCount(path, visited);
      CertifiedIsPinned(graph, installed, c);
      if depth > MAXIMUM_NODES || c.key !in graph {
        return false;
      }
      if c in visited {
        return true;
      }
      if |visited| >= MAXIMUM_NODES {
        forall all | c in all && visited <= all ensures |all| > MAXIMUM_NODES { SubsetCount(visited + {c}, all); }
        return false;
      }
      KeysGrow(visited, c);
      visited := visited + {c};
      reached := reached + {c.key};
      if !Certified(graph, installed, c) {
        return false;
      }
      ok := VisitTargets(c, depth, path + {c});
    }

    /** The loop over the resolved dependencies. */
    method VisitTargets(c: Context, depth: nat, ghost path: set<Context>) returns (ok: bool)
      requires Valid() && c in visited && path <= visited && |path| == depth + 1 && Certified(graph, installed, c)
      modifies this
      ensures Valid() && old(visited) <= visited
      ensures ok ==> Targets(graph, installed, c) <= visited && Finished(old(visited))
      ensures forall all | old(visited) <= all && Closed(graph, installed, all) :: visited <= all
      ensures forall all | old(visited) <= all && Closed(graph, installed, all) && AllCertified(graph, installed, all) && |all| <= MAXIMUM_NODES :: ok
      decreases MAXIMUM_NODES - |visited|, 2
    {
      hide Certified, Targets, Keys;
      var left := Targets(graph, installed, c);
      ok := true;
      while left != {}
        invariant ok && Valid() && old(visited) <= visited && left <= Targets(graph, installed, c) <= left + visited
        invariant Finished(old(visited))
        invariant forall all | old(visited) <= all && Closed(graph, installed, all) :: visited <= all
        decreases |left|
      {
        var target :| target in left;
        SubsetCount(old(visited), visited);
        ok := Visit(target, depth + 1, path);
        if !ok {
          return;
        }
        left := left - {target};
      }
    }

    /** The body of the check, once the pins are known to be well formed. */
    method Run(root: Context) returns (ok: bool)
      requires visited == {} && reached == {} && WellPinned(root.key, graph)
      modifies this
      ensures ok ==> Certificate(graph, installed, root, visited)
      ensures (exists contexts :: Certificate(graph, installed, root, contexts)) ==> ok
    {
      hide WellPinned, Certified, Targets;
      assert Keys({}) == {};
      ok := Visit(root, 0, {});
      ghost var passed := ok;
      if ok {
        ReachedPinned();
        ok := |reached| == |graph.Keys|;
        SameSet(reached, graph.Keys);
      }
      if contexts :| Certificate(graph, installed, root, contexts) {
        assert passed && visited <= contexts;
        assert Closed(graph, installed, visited);
        assert visited == contexts;
        assert reached == graph.Keys;
      }
    }

    lemma ReachedPinned()
      requires Valid() && Finished({})
      ensures reached <= graph.Keys
    {
      hide Targets;
      forall key | key in reached ensures key in graph {
        var c :| c in visited && c.key == key;
        assert Certified(graph, installed, c);
      }
    }
  }

  /** `assertDependencyGraphIdentity`: it passes if and only if the pins are well formed and a certificate for them exists. */
  method AssertDependencyGraphIdentity(root: Context, graph: map<string, Node>, installed: Installed) returns (ok: bool)
    ensures ok <==> WellPinned(root.key, graph) && exists contexts :: Certificate(graph, installed, root, contexts)
  {
    hide Certificate, Certified;
    ok := WellPinned(root.key, graph);
    if ok {
      var check := new DependencyCheck(graph, installed);
      ok := check.Run(root);
    }
  }

  /** A certificate is unique: it is exactly what is reachable from the root. */
  lemma CertificateIsUnique(graph: map<string, Node>, installed: Installed, root: Context, first: set<Context>, second: set<Context>)
    requires Certificate(graph, installed, root, first) && Certificate(graph, installed, root, second)
    ensures first == second
  {
    hide Certified, Targets;
  }
}
