/** When a program can reach a CadQuery submodule that the source policy names, by following where the module flows. */
module ModuleReach {
  import opened Json
  import opened SourcePolicy
  import opened SourcePolicyProperties
  import opened NameResolution
  import opened CalleeResolution

  // ------------------------------------------------------- where the module flows

  /** As part of `parent` and with these scopes open, `node` evaluates to the cadquery module. */
  datatype Event = Event(parent: Node, node: Node, scopes: seq<Node>)

  /** The event belongs to an occurrence in the program. */
  ghost predicate Placed(body: seq<Node>, e: Event) {
    exists outer :: Occurs(body, e.parent, outer) && Part(e.parent, outer, e.node, e.scopes)
  }

  /** The name can be the cadquery module by an import. */
  ghost predicate MayBeCadQuery(scopes: seq<Node>, name: string, builtins: string -> bool)
    requires scopes != []
  {
    exists g :: MayBe(scopes, name, builtins, Found(g, ImportedModule("cadquery")))
  }

  ghost predicate Direct(e: Event, builtins: string -> bool) {
    e.scopes != [] && e.node.Name? && !e.node.store && MayBeCadQuery(e.scopes, e.node.id, builtins)
  }

  /** Expressions whose value their own form does not tell: accesses, calls, and the expressions without a rule. */
  predicate Opaque(n: Node) {
    n.Attribute? || n.Call? || n.Other?
  }

  /** The scopes do not tell the value: an opaque expression, or a name assigned, passed or imported as a symbol. */
  ghost predicate Untracked(e: Event, builtins: string -> bool) {
    || Opaque(e.node)
    || (e.scopes != [] && e.node.Name? && !e.node.store
        && exists g, o: Origin :: (o.Assigned? || o.Declared? || o.ImportedSymbol?)
                           && MayBe(e.scopes, e.node.id, builtins, Found(g, o)))
  }

  /** The value goes anywhere but into an attribute access on it, so it may turn up again in any untracked place. */
  predicate Releases(e: Event) {
    !e.parent.Attribute?
  }

  /** What justifies an event: an import, or an untracked place after the module was released. */
  ghost predicate Justified(body: seq<Node>, flow: seq<Event>, i: nat, builtins: string -> bool)
    requires i < |flow|
  {
    && Placed(body, flow[i])
    && (|| Direct(flow[i], builtins)
        || (Untracked(flow[i], builtins) && exists j | 0 <= j < i :: Releases(flow[j])))
  }

  /** Events in the order they may happen; any order of evaluation the program allows gives such a sequence. */
  ghost predicate IsFlow(body: seq<Node>, flow: seq<Event>, builtins: string -> bool) {
    forall i: nat | i < |flow| :: Justified(body, flow, i, builtins)
  }

  ghost predicate NamesRefused(n: Node) {
    n.ClassPattern? && exists k | 0 <= k < |n.attrs| :: ForbiddenModule(n.attrs[k])
  }

  /** An attribute access of a refused name on the module. */
  predicate Accesses(e: Event) {
    e.parent.Attribute? && ForbiddenModule(e.parent.attr)
  }

  /** A refused attribute is read of the module, or by a class pattern of a value that may be it. */
  ghost predicate Reaches(body: seq<Node>, flow: seq<Event>) {
    || (exists i | 0 <= i < |flow| :: Accesses(flow[i]))
    || (&& (exists i | 0 <= i < |flow| :: Releases(flow[i]))
        && exists n :: Within(n, Module(body)) && NamesRefused(n))
  }

  /** Some flow of the module ends in a refused submodule; a namespace handed out may hold the submodule itself. */
  ghost predicate Reachable(body: seq<Node>, builtins: string -> bool, exposing: Exposing) {
    Exposed(body, builtins, exposing) || exists flow :: IsFlow(body, flow, builtins) && Reaches(body, flow)
  }

  // ------------------------------------------------- the same, read off the program

  /** A refused attribute is taken of a name that can be the module by an import. */
  ghost predicate DirectAccess(body: seq<Node>, e: Event, builtins: string -> bool) {
    Placed(body, e) && Direct(e, builtins) && Accesses(e)
  }

  /** The module is read as a value of its own. */
  ghost predicate Loose(body: seq<Node>, builtins: string -> bool) {
    exists e :: Placed(body, e) && Direct(e, builtins) && Releases(e)
  }

  /** A refused attribute is taken of an untracked value, or named by a class pattern. */
  ghost predicate BlindAccess(body: seq<Node>, builtins: string -> bool) {
    || (exists e :: Placed(body, e) && Untracked(e, builtins) && Accesses(e))
    || (exists n :: Within(n, Module(body)) && NamesRefused(n))
  }

  /** The first release of a flow is of a name bound by an import. */
  lemma {:induction false} ReleaseIsLoose(body: seq<Node>, flow: seq<Event>, i: nat, builtins: string -> bool)
    requires i < |flow| && IsFlow(body, flow, builtins) && Releases(flow[i])
    ensures Loose(body, builtins)
    decreases i
  {
    hide Placed, Direct, Untracked, Releases;
    assert Justified(body, flow, i, builtins);
    if !Direct(flow[i], builtins) {
      var j :| 0 <= j < i && Releases(flow[j]);
      ReleaseIsLoose(body, flow, j, builtins);
    }
  }

  /** Every flow that reaches a refused submodule leaves its trace in the program text. */
  lemma FlowIsVisible(body: seq<Node>, flow: seq<Event>, builtins: string -> bool)
    requires IsFlow(body, flow, builtins) && Reaches(body, flow)
    ensures (exists e :: DirectAccess(body, e, builtins)) || (Loose(body, builtins) && BlindAccess(body, builtins))
  {
    hide Placed, Direct, Untracked, Releases, Accesses, Loose, Within, NamesRefused;
    if i :| 0 <= i < |flow| && Accesses(flow[i]) {
      assert Justified(body, flow, i, builtins);
      if Direct(flow[i], builtins) {
        assert DirectAccess(body, flow[i], builtins);
      } else {
        var j :| 0 <= j < i && Releases(flow[j]);
        ReleaseIsLoose(body, flow, j, builtins);
      }
    } else {
      var i :| 0 <= i < |flow| && Releases(flow[i]);
      ReleaseIsLoose(body, flow, i, builtins);
    }
  }

  lemma DirectReaches(body: seq<Node>, e: Event, builtins: string -> bool, exposing: Exposing)
    requires DirectAccess(body, e, builtins)
    ensures Reachable(body, builtins, exposing)
  {
    hide Placed, Direct, Untracked, Exposed, Releases, Accesses, Within, NamesRefused;
    assert Justified(body, [e], 0, builtins);
    assert Accesses([e][0]);
    assert IsFlow(body, [e], builtins);
  }

  lemma BlindReaches(body: seq<Node>, builtins: string -> bool, exposing: Exposing)
    requires Loose(body, builtins) && BlindAccess(body, builtins)
    ensures Reachable(body, builtins, exposing)
  {
    hide Placed, Direct, Untracked, Exposed, Releases, Accesses, Within, NamesRefused;
    var release :| Placed(body, release) && Direct(release, builtins) && Releases(release);
    assert Justified(body, [release], 0, builtins);
    assert IsFlow(body, [release], builtins) && Releases([release][0]);
    if e :| Placed(body, e) && Untracked(e, builtins) && Accesses(e) {
      var flow := [release, e];
      assert Justified(body, flow, 0, builtins) && Releases(flow[0]) && Justified(body, flow, 1, builtins);
      assert IsFlow(body, flow, builtins) && Accesses(flow[1]);
    }
  }

  /**
   * The module can flow into a refused submodule exactly when a namespace is handed out, when a refused attribute is
   * taken of a name imported as the module, or when the module is read as a value and a refused attribute is taken of
   * an untracked value or by a class pattern.
   */
  lemma ReachableExactly(body: seq<Node>, builtins: string -> bool, exposing: Exposing)
    ensures Reachable(body, builtins, exposing) <==>
            || Exposed(body, builtins, exposing)
            || (exists e :: DirectAccess(body, e, builtins))
            || (Loose(body, builtins) && BlindAccess(body, builtins))
  {
    hide IsFlow, Reaches, DirectAccess, Loose, BlindAccess, Exposed;
    if flow :| IsFlow(body, flow, builtins) && Reaches(body, flow) { FlowIsVisible(body, flow, builtins); }
    if e :| DirectAccess(body, e, builtins) { DirectReaches(body, e, builtins, exposing); }
    if Loose(body, builtins) && BlindAccess(body, builtins) { BlindReaches(body, builtins, exposing); }
  }

  // ---------------------------------------------- what the verdict adds to that

  /** An import visited before the access binds its root. */
  ghost predicate ImportedEarlier(body: seq<Node>, n: Node) {
    ChainRoot(n).Some? &&
    var nodes := Preorder(Module(body));
    exists i | 0 <= i < |nodes| :: nodes[i] == n && LastImport(nodes[..i], ChainRoot(n).value).Some?
  }

  lemma {:induction false} LastAliasIsKnown(names: seq<Alias>, name: string)
    ensures LastAlias(names, name).Some? ==> KnownModule(LastAlias(names, name).value)
  {
    if names != [] { LastAliasIsKnown(names[..|names| - 1], name); }
  }

  lemma {:induction false} LastImportIsKnown(nodes: seq<Node>, name: string)
    ensures LastImport(nodes, name).Some? ==> KnownModule(LastImport(nodes, name).value)
  {
    hide KnownModule;
    if nodes != [] {
      var last := nodes[|nodes| - 1];
      if last.Import? { LastAliasIsKnown(last.names, name); }
      LastImportIsKnown(nodes[..|nodes| - 1], name);
    }
  }

  /** An accepted access of a refused attribute on a plain name has no earlier import of that name. */
  lemma RefusedAccessNotImported(body: seq<Node>, n: Node)
    requires ViolationFree(body) && Within(n, Module(body))
    requires n.Attribute? && n.value.Name? && ForbiddenModule(n.attr)
    ensures !ImportedEarlier(body, n)
  {
    hide ViolationFree, Preorder, LastImport, ForbiddenModule, MathSymbol;
    ViolationFreeIsSafe(body, n);
    var nodes := Preorder(Module(body));
    assert ChainAttributes(n.value) == [] && ChainAttributes(n) == [n.attr];
    if i :| 0 <= i < |nodes| && nodes[i] == n && ChainRoot(n).Some?
            && LastImport(nodes[..i], ChainRoot(n).value).Some? {
      LastImportIsKnown(nodes[..i], ChainRoot(n).value);
      NotBoth(n.attr);
      assert false;
    }
  }

  lemma NotBoth(name: string)
    ensures !(ForbiddenModule(name) && MathSymbol(name))
  {
  }

  lemma PlacedWithin(body: seq<Node>, e: Event)
    requires Placed(body, e)
    ensures Within(e.parent, Module(body)) && e.scopes != []
    ensures forall s | s in e.scopes :: Within(s, Module(body))
  {
    hide Within, Part, Occurs, Module;
    var outer :| Occurs(body, e.parent, outer) && Part(e.parent, outer, e.node, e.scopes);
    OccursWithin(body, e.parent, outer);
    PartWithin(e.parent, outer, e.node, e.scopes);
  }

  /**
   * A violation-free program reaches no refused submodule exactly when no namespace is handed out, each direct access
   * comes after an import of its name, and no blind access meets a loose module.
   */
  lemma UnreachableExactly(body: seq<Node>, builtins: string -> bool, exposing: Exposing)
    requires ViolationFree(body)
    ensures !Reachable(body, builtins, exposing) <==>
            && !Exposed(body, builtins, exposing)
            && (forall e | DirectAccess(body, e, builtins) :: ImportedEarlier(body, e.parent))
            && !(Loose(body, builtins) && BlindAccess(body, builtins))
  {
    hide ViolationFree, Loose, BlindAccess, Reachable, Exposed, ImportedEarlier, Placed, MayBeCadQuery, Within;
    ReachableExactly(body, builtins, exposing);
    forall e | DirectAccess(body, e, builtins) ensures !ImportedEarlier(body, e.parent) {
      PlacedWithin(body, e);
      AttributeBase(body, e);
      RefusedAccessNotImported(body, e.parent);
    }
    hide DirectAccess;
  }

  /** What an attribute access evaluates is its base. */
  lemma AttributeBase(body: seq<Node>, e: Event)
    requires Placed(body, e) && e.parent.Attribute?
    ensures e.node == e.parent.value
  {
  }

  // -------------------------------------------------- a guard on the layout alone

  /** All module imports stand at the top, before anything else than imports. */
  ghost predicate ImportsFirst(body: seq<Node>, k: nat) {
    && k <= |body|
    && (forall j | 0 <= j < k :: body[j].Import? || body[j].ImportFrom?)
    && (forall j, n | k <= j < |body| && Within(n, body[j]) :: !n.Import?)
  }

  lemma {:induction false} FlatOfImports(nodes: seq<Node>)
    requires forall j | 0 <= j < |nodes| :: nodes[j].Import? || nodes[j].ImportFrom?
    ensures Flat(nodes) == nodes
    decreases |nodes|
  {
    if nodes != [] {
      PreorderIs(nodes[0]);
      FlatOfImports(nodes[1..]);
      assert nodes == [nodes[0]] + nodes[1..];
    }
  }

  lemma {:induction false} AliasFound(names: seq<Alias>, k: nat, name: string)
    requires k < |names| && KnownModule(names[k].name) && !Private(Bound(names[k])) && Bound(names[k]) == name
    ensures LastAlias(names, name).Some?
    decreases |names|
  {
    hide KnownModule, Private;
    if k < |names| - 1 { AliasFound(names[..|names| - 1], k, name); }
  }

  lemma {:induction false} ImportFound(nodes: seq<Node>, j: nat, name: string)
    requires j < |nodes| && nodes[j].Import? && LastAlias(nodes[j].names, name).Some?
    ensures LastImport(nodes, name).Some?
    decreases |nodes|
  {
    hide LastAlias;
    if j < |nodes| - 1 { ImportFound(nodes[..|nodes| - 1], j, name); }
  }

  /** The import statement behind a name that may be the module. */
  lemma ModuleHasImport(body: seq<Node>, scopes: seq<Node>, name: string, builtins: string -> bool)
    returns (imported: Node)
    requires scopes != [] && MayBeCadQuery(scopes, name, builtins)
    requires forall s | s in scopes :: Within(s, Module(body))
    ensures Within(imported, Module(body)) && NodeBinds(imported, name, ImportedModule("cadquery")) && imported.Import?
  {
    hide Within, NodeBinds, ScopeBinds, MayBe, Module;
    var g :| MayBe(scopes, name, builtins, Found(g, ImportedModule("cadquery")));
    MayBeExactly(scopes, name, builtins, Found(g, ImportedModule("cadquery")));
    var k := Deciding(scopes, name);
    ScopeHasBinder(scopes[k], name, ImportedModule("cadquery"));
    imported :| Within(imported, scopes[k]) && NodeBinds(imported, name, ImportedModule("cadquery"));
    WithinTransitive(imported, scopes[k], Module(body));
    OnlyImportsBindModules(imported, name, "cadquery");
  }

  lemma OnlyImportsBindModules(n: Node, f: string, name: string)
    requires NodeBinds(n, f, ImportedModule(name))
    ensures n.Import?
  {
  }

  /** An import that is the whole of a leading statement. */
  lemma LeadingImport(body: seq<Node>, k: nat, imported: Node) returns (j: nat)
    requires ImportsFirst(body, k) && Within(imported, Module(body)) && imported.Import?
    ensures j < k && body[j] == imported
  {
    assert Children(Module(body)) == body;
    j :| 0 <= j < |body| && Within(imported, body[j]);
    assert j < k;
  }

  /** With the imports first, every access on a name that may be the module is visited after the import of the name. */
  lemma ImportsFirstTracksModule(body: seq<Node>, k: nat, e: Event, builtins: string -> bool)
    requires ViolationFree(body) && ImportsFirst(body, k) && DirectAccess(body, e, builtins)
    ensures ImportedEarlier(body, e.parent)
  {
    PlacedWithin(body, e);
    AttributeBase(body, e);
    var root := e.node.id;
    var imported := ModuleHasImport(body, e.scopes, root, builtins);
    var j := LeadingImport(body, k, imported);
    AccessAfterImport(body, k, j, e.parent, root);
  }

  lemma AccessAfterImport(body: seq<Node>, k: nat, j: nat, n: Node, root: string)
    requires ViolationFree(body) && ImportsFirst(body, k) && j < k <= |body| && Within(body[j], Module(body))
    requires NodeBinds(body[j], root, ImportedModule("cadquery"))
    requires Within(n, Module(body)) && n.Attribute? && n.value.Name? && n.value.id == root
    ensures ImportedEarlier(body, n)
  {
    hide Preorder, ViolationFree, NodeAllowed, LastImport, LastAlias, Flat, Within, ImportsFirst, NodeBinds, Module;
    hide FunctionNames;
    var nodes := Preorder(Module(body));
    ViolationFreeIsSafe(body, n);
    var i :| 0 <= i < |nodes| && nodes[i] == n;
    LeadingVisits(body, k);
    assert i > k && nodes[j + 1] == body[j];
    ViolationFreeIsSafe(body, body[j]);
    EarlierImport(body, n, i, j + 1, root);
  }

  lemma EarlierImport(body: seq<Node>, n: Node, i: nat, j: nat, root: string)
    requires var nodes := Preorder(Module(body));
             && j < i < |nodes| && nodes[i] == n && NodeAllowed(nodes, j, FunctionNames(body))
             && NodeBinds(nodes[j], root, ImportedModule("cadquery"))
    requires ChainRoot(n) == Some(root)
    ensures ImportedEarlier(body, n)
  {
    hide Preorder, LastImport, LastAlias, NodeAllowed, NodeBinds, FunctionNames, Module, ChainRoot;
    var nodes := Preorder(Module(body));
    AcceptedImport(nodes, j, FunctionNames(body), root);
    assert nodes[..i][j] == nodes[j];
    ImportFound(nodes[..i], j, root);
  }

  lemma LeadingVisits(body: seq<Node>, k: nat)
    requires ImportsFirst(body, k)
    ensures var nodes := Preorder(Module(body));
            && |nodes| > k && (forall j | 0 <= j < k :: nodes[j + 1] == body[j])
            && (forall i | 0 <= i <= k :: !nodes[i].Attribute?)
  {
    hide Preorder, Flat, Within;
    PreorderIs(Module(body));
    assert Children(Module(body)) == body == body[..k] + body[k..];
    FlatConcat(body[..k], body[k..]);
    FlatOfImports(body[..k]);
    assert Preorder(Module(body))[0] == Module(body);
    forall i | 0 <= i <= k ensures !Preorder(Module(body))[i].Attribute? {
      if i > 0 { assert Preorder(Module(body))[i] == body[i - 1]; }
    }
  }

  lemma AcceptedImport(nodes: seq<Node>, i: nat, functions: set<string>, name: string)
    requires i < |nodes| && NodeAllowed(nodes, i, functions) && NodeBinds(nodes[i], name, ImportedModule("cadquery"))
    ensures nodes[i].Import? && LastAlias(nodes[i].names, name).Some?
  {
    OnlyImportsBindModules(nodes[i], name, "cadquery");
    var names := nodes[i].names;
    var k :| 0 <= k < |names| && Bound(names[k]) == name && ImportedModule("cadquery") == ImportedModule(names[k].name);
    AliasFound(names, k, name);
  }

  /** With the imports first, handed-out namespaces and blind accesses to a loose module are all that is left. */
  lemma ImportsFirstExactly(body: seq<Node>, k: nat, builtins: string -> bool, exposing: Exposing)
    requires ViolationFree(body) && ImportsFirst(body, k)
    ensures Reachable(body, builtins, exposing) <==>
            Exposed(body, builtins, exposing) || (Loose(body, builtins) && BlindAccess(body, builtins))
  {
    hide ViolationFree, ImportsFirst, Loose, BlindAccess, Reachable, Exposed, ImportedEarlier, DirectAccess;
    UnreachableExactly(body, builtins, exposing);
    forall e | DirectAccess(body, e, builtins) ensures ImportedEarlier(body, e.parent) {
      ImportsFirstTracksModule(body, k, e, builtins);
    }
  }

  /** So nothing is reached as long as the module is only read for its attributes, and nothing exposing is read. */
  lemma ImportsFirstIsSafe(body: seq<Node>, k: nat, builtins: string -> bool, exposing: Exposing)
    requires ViolationFree(body) && ImportsFirst(body, k)
    requires !Loose(body, builtins) && !Exposed(body, builtins, exposing)
    ensures !Reachable(body, builtins, exposing)
  {
    ImportsFirstExactly(body, k, builtins, exposing);
  }
}
