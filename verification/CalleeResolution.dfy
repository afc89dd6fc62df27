/** What the names a violation-free program calls and dereferences can stand for. */
module CalleeResolution {
  import opened Json
  import opened SourcePolicy
  import opened SourcePolicyProperties
  import opened NameResolution

  // --------------------------------------------------------- called names

  /** Bound this way, f is what the policy lists: a top-level function or an imported callable symbol. */
  predicate ListedBinding(o: Origin, global: bool) {
    match o
    case Defined => global
    case ImportedSymbol(origin, name) => KnownModule(origin) && CallableSymbol(origin, name)
    case _ => false
  }

  predicate Listed(found: Found, f: string) {
    if found.origin == Builtin then BuiltinCall(f) else ListedBinding(found.origin, found.global)
  }

  predicate PatternReads(n: Node, name: string) {
    n.ClassPattern? && name in n.attrs
  }

  /** The node reads this attribute of some object, by an attribute access or in a class pattern. */
  predicate ReadsAttribute(n: Node, name: string) {
    (n.Attribute? && n.attr == name) || PatternReads(n, name)
  }

  /** The program can read this builtin by its name, to call it or for anything else. */
  ghost predicate ReadsBuiltin(body: seq<Node>, name: string, builtins: string -> bool) {
    exists n, scopes ::
      && Occurs(body, n, scopes) && n.Name? && !n.store && n.id == name && scopes != []
      && MayBe(scopes, name, builtins, Found(true, Builtin))
  }

  /** The names that hand out a namespace, or what it holds, behind the scopes: of attributes, and of builtins. */
  datatype Exposing = Exposing(attribute: string -> bool, builtin: string -> bool)

  /** The program reads one of these. */
  ghost predicate Exposed(body: seq<Node>, builtins: string -> bool, exposing: Exposing) {
    || (exists n, name :: Within(n, Module(body)) && ReadsAttribute(n, name) && exposing.attribute(name))
    || (exists name :: exposing.builtin(name) && ReadsBuiltin(body, name, builtins))
  }

  /** What a name can stand for: a value of its scopes, or anything once a namespace is handed out. */
  ghost predicate MayStandFor(
      body: seq<Node>, scopes: seq<Node>, f: string, builtins: string -> bool, exposing: Exposing, found: Found)
    requires scopes != []
  {
    MayBe(scopes, f, builtins, found) || (Exposed(body, builtins, exposing) && found == Found(true, Written))
  }

  /** Whatever has been executed so far, f is a listed callee or raises a NameError. */
  ghost predicate AlwaysListed(
      body: seq<Node>, scopes: seq<Node>, f: string, builtins: string -> bool, exposing: Exposing)
    requires scopes != []
  {
    forall found | MayStandFor(body, scopes, f, builtins, exposing, found) :: Listed(found, f)
  }

  /** The deciding scope binds f in an unlisted way, or leaves it to an unlisted builtin. */
  ghost predicate Rebound(scopes: seq<Node>, f: string, builtins: string -> bool)
    requires scopes != []
  {
    var k := Deciding(scopes, f);
    || (exists o :: o != Annotated && ScopeBinds(scopes[k], f, o) && !ListedBinding(o, k == 0))
    || (k == 0 && builtins(f) && !BuiltinCall(f))
  }

  /** This very node binds f, as an assignment, a parameter, a definition, an import or an annotation. */
  ghost predicate NodeBinds(n: Node, f: string, o: Origin) {
    match n
    case Name(id, store, _) => store && id == f && o == Assigned
    case Import(names, _) => exists k | 0 <= k < |names| :: Bound(names[k]) == f && o == ImportedModule(names[k].name)
    case ImportFrom(_, origin, names, _) =>
      origin.Some? && exists k | 0 <= k < |names| ::
        Bound(names[k]) == f && o == ImportedSymbol(origin.value, names[k].name)
    case FunctionDef(name, params, _, _, _, _) =>
      (name == f && o == Defined) || (f in AllParameters(params) && o == Declared)
    case AnnAssign(target, _, optional, simple, _) =>
      simple && optional == [] && target.Name? && target.id == f && o == Annotated
    case Capture(captured, _, _) => captured == f && o == Assigned
    case _ => false
  }

  ghost predicate ChildContributes(m: Node, f: string, o: Origin) {
    exists c :: c in Children(m) && Contributes(c, f, o)
  }

  lemma ListContributes(m: Node, nodes: seq<Node>, f: string, o: Origin)
    requires AnyContributes(nodes, f, o) && forall c | c in nodes :: c in Children(m)
    ensures ChildContributes(m, f, o)
  {
    hide Contributes;
    var i :| 0 <= i < |nodes| && Contributes(nodes[i], f, o);
    assert nodes[i] in Children(m);
  }

  lemma FunctionContributes(m: Node, f: string, o: Origin)
    requires m.FunctionDef? && Contributes(m, f, o)
    ensures NodeBinds(m, f, o) || ChildContributes(m, f, o)
  {
    if AnyContributes(m.params.nodes, f, o) { ListContributes(m, m.params.nodes, f, o); }
    if AnyContributes(m.decorators, f, o) { ListContributes(m, m.decorators, f, o); }
    if AnyContributes(m.resultHint, f, o) { ListContributes(m, m.resultHint, f, o); }
    hide AnyContributes, ChildContributes;
  }

  lemma AnnotationContributes(m: Node, f: string, o: Origin)
    requires m.AnnAssign? && Contributes(m, f, o)
    ensures NodeBinds(m, f, o) || ChildContributes(m, f, o)
  {
    if AnyContributes(m.optional, f, o) { ListContributes(m, m.optional, f, o); }
    assert m.target in Children(m) && m.annotation in Children(m);
  }

  lemma PatternContributes(m: Node, f: string, o: Origin)
    requires (m.Capture? || m.Generator?) && Contributes(m, f, o)
    ensures NodeBinds(m, f, o) || ChildContributes(m, f, o)
  {
    if m.Capture? {
      if AnyContributes(m.patterns, f, o) { ListContributes(m, m.patterns, f, o); }
    } else {
      if AnyContributes(m.conditions, f, o) { ListContributes(m, m.conditions, f, o); }
      assert m.iterable in Children(m);
    }
  }

  lemma OtherContributes(m: Node, f: string, o: Origin)
    requires !m.FunctionDef? && !m.AnnAssign? && !m.Capture? && !m.Generator? && Contributes(m, f, o)
    ensures NodeBinds(m, f, o) || ChildContributes(m, f, o)
  {
    if AnyContributes(Children(m), f, o) { ListContributes(m, Children(m), f, o); }
    hide Children, ChildContributes;
  }

  /** What a node contributes and does not bind itself, one of its children contributes. */
  lemma BoundHereOrBelow(m: Node, f: string, o: Origin)
    requires Contributes(m, f, o)
    ensures NodeBinds(m, f, o) || ChildContributes(m, f, o)
  {
    hide Contributes, NodeBinds, ChildContributes;
    match m
    case FunctionDef(_, _, _, _, _, _) => FunctionContributes(m, f, o);
    case AnnAssign(_, _, _, _, _) => AnnotationContributes(m, f, o);
    case Capture(_, _, _) => PatternContributes(m, f, o);
    case Generator(_, _, _, _) => PatternContributes(m, f, o);
    case _ => OtherContributes(m, f, o);
  }

  /** Whatever a subtree binds, some node in it binds. */
  lemma {:induction false} ContributesHasBinder(m: Node, f: string, o: Origin)
    requires Contributes(m, f, o)
    ensures exists n :: Within(n, m) && NodeBinds(n, f, o)
    decreases m
  {
    BoundHereOrBelow(m, f, o);
    hide Contributes, NodeBinds, Within, Children;
    WithinItself(m);
    if !NodeBinds(m, f, o) {
      ChildrenSmaller(m);
      var c :| c in Children(m) && Contributes(c, f, o);
      ContributesHasBinder(c, f, o);
      var n :| Within(n, c) && NodeBinds(n, f, o);
      WithinParent(n, c, m);
    }
  }

  lemma ListHasBinder(m: Node, nodes: seq<Node>, f: string, o: Origin)
    requires AnyContributes(nodes, f, o) && forall c | c in nodes :: c in Children(m)
    ensures exists n :: Within(n, m) && NodeBinds(n, f, o)
  {
    hide Contributes, NodeBinds, Within;
    ListContributes(m, nodes, f, o);
    var c :| c in Children(m) && Contributes(c, f, o);
    ContributesHasBinder(c, f, o);
    var n :| Within(n, c) && NodeBinds(n, f, o);
    WithinParent(n, c, m);
  }

  lemma ItemHasBinder(scope: Node, k: nat, f: string, o: Origin)
    requires scope.Comprehension? && k < |scope.generators| && scope.generators[k].Generator?
    requires Contributes(scope.generators[k].item, f, o)
    ensures exists n :: Within(n, scope) && NodeBinds(n, f, o)
  {
    hide Contributes, NodeBinds, Within;
    var g := scope.generators[k];
    ContributesHasBinder(g.item, f, o);
    var n :| Within(n, g.item) && NodeBinds(n, f, o);
    assert Children(g)[0] == g.item && g in Children(scope);
    WithinParent(n, g.item, g);
    WithinParent(n, g, scope);
  }

  /** And whatever a scope binds, too. */
  lemma ScopeHasBinder(scope: Node, f: string, o: Origin)
    requires ScopeBinds(scope, f, o)
    ensures exists n :: Within(n, scope) && NodeBinds(n, f, o)
  {
    hide Contributes;
    ChildrenSmaller(scope);
    match scope
    case FunctionDef(_, params, body, _, _, _) =>
      if f in AllParameters(params) && o == Declared {
        assert NodeBinds(scope, f, o) && Within(scope, scope);
      } else {
        hide NodeBinds, Within;
        ListHasBinder(scope, body, f, o);
      }
    case Comprehension(_, generators, _) =>
      hide NodeBinds, Within;
      var k :| 0 <= k < |generators| && generators[k].Generator? && Contributes(generators[k].item, f, o);
      ItemHasBinder(scope, k, f, o);
    case _ =>
      hide NodeBinds, Within;
      ListHasBinder(scope, Children(scope), f, o);
  }

  /** The callee is always listed exactly when no namespace is handed out and the deciding scope does not rebind it. */
  lemma CalleeListedExactly(
      body: seq<Node>, scopes: seq<Node>, f: string, builtins: string -> bool, exposing: Exposing)
    requires scopes != []
    ensures AlwaysListed(body, scopes, f, builtins, exposing) <==>
            !Exposed(body, builtins, exposing) && !Rebound(scopes, f, builtins)
  {
    hide ScopeBinds, MayBe, Exposed;
    var k := Deciding(scopes, f);
    forall found
      ensures MayBe(scopes, f, builtins, found) <==>
              && (found.global <==> k == 0)
              && (|| (found.origin != Annotated && ScopeBinds(scopes[k], f, found.origin))
                  || (k == 0 && found.origin == Builtin && builtins(f)))
    {
      MayBeExactly(scopes, f, builtins, found);
    }
    ScopeBindsNoBuiltin(scopes[k], f);
    if Exposed(body, builtins, exposing) {
      assert MayStandFor(body, scopes, f, builtins, exposing, Found(true, Written));
    }
    if o :| o != Annotated && ScopeBinds(scopes[k], f, o) && !ListedBinding(o, k == 0) {
      assert MayBe(scopes, f, builtins, Found(k == 0, o));
      assert MayStandFor(body, scopes, f, builtins, exposing, Found(k == 0, o));
    }
    if k == 0 && builtins(f) && !BuiltinCall(f) {
      assert MayBe(scopes, f, builtins, Found(true, Builtin));
      assert MayStandFor(body, scopes, f, builtins, exposing, Found(true, Builtin));
    }
  }

  lemma ScopeBindsNoBuiltin(scope: Node, f: string)
    ensures !ScopeBinds(scope, f, Builtin)
  {
    hide ScopeBinds;
    if ScopeBinds(scope, f, Builtin) { ScopeHasBinder(scope, f, Builtin); }
  }

  // ------------------------------------------------- occurrences and the tree

  lemma PartWithin(m: Node, scopes: seq<Node>, c: Node, inner: seq<Node>)
    requires Part(m, scopes, c, inner)
    ensures Within(c, m) && (inner == scopes || inner == scopes + [m])
  {
    hide Within;
    WithinItself(c);
    if c in Children(m) {
      WithinParent(c, c, m);
    } else {
      var k :| 0 <= k < |m.generators| && m.generators[k].Generator?
            && (c == m.generators[k].item || c in m.generators[k].conditions || c == m.generators[k].iterable);
      assert Children(m.generators[k]) == [m.generators[k].item, m.generators[k].iterable] + m.generators[k].conditions;
      WithinParent(c, c, m.generators[k]);
      WithinParent(c, m.generators[k], m);
    }
  }

  lemma {:induction false} AtWithin(m: Node, scopes: seq<Node>, n: Node, inner: seq<Node>)
    requires At(m, scopes, n, inner)
    ensures Within(n, m) && scopes <= inner && forall s | s in inner :: s in scopes || Within(s, m)
    decreases m
  {
    hide Within, Part;
    WithinItself(m);
    if !(n == m && inner == scopes) {
      var c, s :| c < m && Part(m, scopes, c, s) && At(c, s, n, inner);
      PartWithin(m, scopes, c, s);
      AtWithin(c, s, n, inner);
      WithinTransitive(n, c, m);
      forall x | x in inner && x !in scopes ensures Within(x, m) {
        if x in s { assert x == m; } else { WithinTransitive(x, c, m); }
      }
    }
  }

  /** An occurrence is a node of the tree, below scopes of the tree, the module outermost. */
  lemma OccursWithin(body: seq<Node>, n: Node, scopes: seq<Node>)
    requires Occurs(body, n, scopes)
    ensures Within(n, Module(body)) && scopes != [] && scopes[0] == Module(body)
    ensures forall s | s in scopes :: Within(s, Module(body))
  {
    hide Within, At;
    var k :| 0 <= k < |body| && At(body[k], [Module(body)], n, scopes);
    AtWithin(body[k], [Module(body)], n, scopes);
    WithinItself(Module(body));
    WithinItself(body[k]);
    assert body[k] in Children(Module(body));
    WithinParent(body[k], body[k], Module(body));
    WithinTransitive(n, body[k], Module(body));
    forall s | s in scopes ensures Within(s, Module(body)) {
      if s != Module(body) { WithinTransitive(s, body[k], Module(body)); }
    }
  }

  /** No scope gives a name that no node binds any value but the builtin. */
  lemma UnboundIsBuiltin(body: seq<Node>, n: Node, scopes: seq<Node>, f: string, builtins: string -> bool)
    requires Occurs(body, n, scopes)
    requires forall m, o | Within(m, Module(body)) :: !NodeBinds(m, f, o)
    ensures scopes != [] && forall found | MayBe(scopes, f, builtins, found) :: found == Found(true, Builtin)
  {
    hide Within, NodeBinds, MayBe, ScopeBinds, Occurs;
    OccursWithin(body, n, scopes);
    forall found | MayBe(scopes, f, builtins, found) ensures found == Found(true, Builtin) {
      MayBeExactly(scopes, f, builtins, found);
      var k := Deciding(scopes, f);
      if ScopeBinds(scopes[k], f, found.origin) {
        ScopeHasBinder(scopes[k], f, found.origin);
        var m :| Within(m, scopes[k]) && NodeBinds(m, f, found.origin);
        WithinTransitive(m, scopes[k], Module(body));
      }
    }
  }

  /**
   * An accepted call of a name no node binds is of a listed builtin; the call reaches that builtin and nothing else
   * exactly when the program reads nothing that hands out a namespace.
   */
  lemma UnboundCallIsBuiltin(body: seq<Node>, call: Node, scopes: seq<Node>, f: string, builtins: string -> bool,
                             exposing: Exposing)
    requires ViolationFree(body) && Occurs(body, call, scopes)
    requires call.Call? && call.func.Name? && call.func.id == f
    requires forall n, o | Within(n, Module(body)) :: !NodeBinds(n, f, o)
    ensures BuiltinCall(f) && scopes != []
    ensures (forall found | MayStandFor(body, scopes, f, builtins, exposing, found) :: found == Found(true, Builtin))
       <==> !Exposed(body, builtins, exposing)
  {
    hide Within, NodeBinds, MayBe, ScopeBinds, NodeAllowed, ViolationFree, Preorder, Occurs, Exposed;
    OccursWithin(body, call, scopes);
    UnboundIsBuiltin(body, call, scopes, f, builtins);
    var nodes := Preorder(Module(body));
    ViolationFreeIsSafe(body, call);
    var i :| 0 <= i < |nodes| && nodes[i] == call;
    AcceptedName(nodes, i, FunctionNames(body), f);
    if f in FunctionNames(body) { FunctionNameBinds(body, f); }
    if CallableBefore(nodes, i, f) {
      var j :| 0 <= j < i && ImportsCallable(nodes[j], f);
      CallableBinds(nodes[j], f);
      VisitedIsWithin(nodes[j], Module(body));
    }
    assert Exposed(body, builtins, exposing) ==> MayStandFor(body, scopes, f, builtins, exposing, Found(true, Written));
  }

  /** No attribute access of a violation-free program reads a private attribute. */
  lemma AttributesArePublic(body: seq<Node>, n: Node)
    requires ViolationFree(body) && Within(n, Module(body)) && n.Attribute?
    ensures !Private(n.attr)
  {
    hide Within, ViolationFree, Preorder, Private;
    ViolationFreeIsSafe(body, n);
    var nodes := Preorder(Module(body));
    var i :| 0 <= i < |nodes| && nodes[i] == n;
    assert NodeAllowed(nodes, i, FunctionNames(body));
  }

  /** No call of a violation-free program has a refused builtin as its callee; the name may still be read. */
  lemma RefusedNeverCalled(body: seq<Node>, call: Node)
    requires ViolationFree(body) && Within(call, Module(body)) && call.Call? && call.func.Name?
    ensures !ForbiddenCall(call.func.id)
  {
    hide Within, ViolationFree, Preorder, ForbiddenCall, BuiltinCall;
    ViolationFreeIsSafe(body, call);
    var nodes := Preorder(Module(body));
    var i :| 0 <= i < |nodes| && nodes[i] == call;
    assert NodeAllowed(nodes, i, FunctionNames(body));
  }

  /** A public attribute of those that hand out a namespace is taken by an attribute access. */
  ghost predicate TakesExposing(body: seq<Node>, exposing: Exposing) {
    exists n :: Within(n, Module(body)) && n.Attribute? && !Private(n.attr) && exposing.attribute(n.attr)
  }

  /** A class pattern names an attribute of those. */
  ghost predicate MatchesExposing(body: seq<Node>, exposing: Exposing) {
    exists n, name :: Within(n, Module(body)) && PatternReads(n, name) && exposing.attribute(name)
  }

  /**
   * Whatever hands out a namespace, a violation-free program has one handed out exactly in one of three ways: by an
   * access to a public attribute, by a class pattern naming any attribute, or by reading a builtin.
   */
  lemma ExposedExactly(body: seq<Node>, builtins: string -> bool, exposing: Exposing)
    requires ViolationFree(body)
    ensures Exposed(body, builtins, exposing) <==>
            || TakesExposing(body, exposing) || MatchesExposing(body, exposing)
            || exists name :: exposing.builtin(name) && ReadsBuiltin(body, name, builtins)
  {
    hide Within, ViolationFree, Preorder, Private, ReadsBuiltin;
    if n, name :| Within(n, Module(body)) && ReadsAttribute(n, name) && exposing.attribute(name) {
      if n.Attribute? { AttributesArePublic(body, n); } else { assert PatternReads(n, name); }
    }
    if n :| Within(n, Module(body)) && n.Attribute? && !Private(n.attr) && exposing.attribute(n.attr) {
      assert ReadsAttribute(n, n.attr);
    }
    if n, name :| Within(n, Module(body)) && PatternReads(n, name) && exposing.attribute(name) {
      assert ReadsAttribute(n, name);
    }
  }

  lemma AcceptedName(nodes: seq<Node>, i: nat, functions: set<string>, f: string)
    requires i < |nodes| && NodeAllowed(nodes, i, functions)
    requires nodes[i].Call? && nodes[i].func.Name? && nodes[i].func.id == f
    ensures BuiltinCall(f) || f in functions || CallableBefore(nodes, i, f)
  {
    hide BuiltinCall, ForbiddenCall, CallableBefore;
  }

  lemma FunctionNameBinds(body: seq<Node>, f: string)
    requires f in FunctionNames(body)
    ensures exists n :: Within(n, Module(body)) && NodeBinds(n, f, Defined)
  {
    var k :| 0 <= k < |body| && body[k].FunctionDef? && body[k].name == f;
    assert NodeBinds(body[k], f, Defined);
    hide Within;
    WithinItself(body[k]);
    assert body[k] in Children(Module(body));
    WithinParent(body[k], body[k], Module(body));
  }

  lemma CallableBinds(n: Node, f: string)
    requires ImportsCallable(n, f)
    ensures exists o :: NodeBinds(n, f, o)
  {
    hide CallableSymbol;
    var k :| 0 <= k < |n.names| && MakesCallable(n.origin.value, n.names[k], f);
    assert NodeBinds(n, f, ImportedSymbol(n.origin.value, n.names[k].name));
  }

  lemma {:induction false} VisitedIsWithin(n: Node, tree: Node)
    requires n in Preorder(tree)
    ensures Within(n, tree)
    decreases tree, 1
  {
    ChildrenSmaller(tree);
    if n != tree {
      VisitedBelow(n, Children(tree), tree);
    }
  }

  lemma {:induction false} VisitedBelow(n: Node, nodes: seq<Node>, tree: Node)
    requires forall i | 0 <= i < |nodes| :: nodes[i] < tree && nodes[i] in Children(tree)
    requires n in PreorderAll(nodes, tree)
    ensures Within(n, tree)
    decreases tree, 0, |nodes|
  {
    if n in Preorder(nodes[0]) {
      VisitedIsWithin(n, nodes[0]);
      WithinParent(n, nodes[0], tree);
    } else {
      VisitedBelow(n, nodes[1..], tree);
    }
  }
}
