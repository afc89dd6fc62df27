/** What a violation-free verdict of the source policy means for every node of the program. */
module SourcePolicyProperties {
  import opened Json
  import opened SourcePolicy

  // ---------------------------------------- violation-free, exactly

  ghost predicate ImportsClean(names: seq<Alias>) {
    forall i | 0 <= i < |names| :: ImportCodes(names[i]) == []
  }

  ghost predicate FromClean(origin: string, names: seq<Alias>) {
    forall i | 0 <= i < |names| :: FromCodes(origin, names[i]) == []
  }

  /** The rule of one node raises nothing, given the tables at the moment it is visited. */
  ghost predicate NodeClean(n: Node, t: Tables, functions: set<string>) {
    match n
    case Name(id, _, _) => !Private(id)
    case Attribute(_, _, _) => AttributeCodes(n, t) == []
    case Call(func, _, _) => CallCodes(func, t, functions) == []
    case Import(names, _) => ImportsClean(names)
    case ImportFrom(level, origin, names, _) =>
      level == 0 && origin.Some? && KnownModule(origin.value) && FromClean(origin.value, names)
    case FunctionDef(name, params, _, decorators, _, _) => FunctionCodes(name, params, decorators) == []
    case _ => !ForbiddenNode(n)
  }

  /** The tables after a node, which do not depend on the violations so far. */
  ghost function TablesAfter(n: Node, t: Tables): Tables {
    Enter(State([], t), n, {}).tables
  }

  ghost predicate CleanRun(nodes: seq<Node>, t: Tables, functions: set<string>)
    decreases |nodes|
  {
    nodes == [] || (NodeClean(nodes[0], t, functions) && CleanRun(nodes[1..], TablesAfter(nodes[0], t), functions))
  }

  lemma {:induction false} AddedAllClean(s: State, codes: seq<Code>, line: Option<int>)
    ensures AddedAll(s, codes, line).violations == [] <==> s.violations == [] && codes == []
    ensures AddedAll(s, codes, line).tables == s.tables
    decreases |codes|
  {
    if codes != [] {
      AddedAllClean(Added(s, codes[0], line), codes[1..], line);
    }
  }

  lemma {:induction false} EnterImportsClean(s: State, names: seq<Alias>, line: int, v: seq<Violation>)
    ensures EnterImports(s, names, line).violations == [] <==> s.violations == [] && ImportsClean(names)
    ensures EnterImports(s, names, line).tables == EnterImports(State(v, s.tables), names, line).tables
    decreases |names|
  {
    hide ImportCodes, ImportTables;
    if names != [] {
      var next := EnterImport(s, names[0], line);
      var next' := EnterImport(State(v, s.tables), names[0], line);
      AddedAllClean(s, ImportCodes(names[0]), Some(line));
      assert next.tables == next'.tables;
      EnterImportsClean(next, names[1..], line, next'.violations);
      assert ImportsClean(names) <==> ImportCodes(names[0]) == [] && ImportsClean(names[1..]) by {
        assert forall i | 0 < i < |names| :: names[i] == names[1..][i - 1];
      }
    }
  }

  lemma {:induction false} EnterFromClean(s: State, origin: string, names: seq<Alias>, line: int, v: seq<Violation>)
    ensures EnterFrom(s, origin, names, line).violations == [] <==> s.violations == [] && FromClean(origin, names)
    ensures EnterFrom(s, origin, names, line).tables == EnterFrom(State(v, s.tables), origin, names, line).tables
    decreases |names|
  {
    hide FromCodes, FromTables;
    if names != [] {
      var next := EnterFromName(s, origin, names[0], line);
      var next' := EnterFromName(State(v, s.tables), origin, names[0], line);
      AddedAllClean(s, FromCodes(origin, names[0]), Some(line));
      assert next.tables == next'.tables;
      EnterFromClean(next, origin, names[1..], line, next'.violations);
      assert FromClean(origin, names) <==> FromCodes(origin, names[0]) == [] && FromClean(origin, names[1..]) by {
        assert forall i | 0 < i < |names| :: names[i] == names[1..][i - 1];
      }
    }
  }

  lemma EnterClean(s: State, n: Node, functions: set<string>)
    ensures Enter(s, n, functions).violations == [] <==> s.violations == [] && NodeClean(n, s.tables, functions)
    ensures Enter(s, n, functions).tables == TablesAfter(n, s.tables)
  {
    hide AttributeCodes, CallCodes, FunctionCodes, Private, KnownModule, Added;
    match n
    case Name(id, _, line) =>
      AddedAllClean(s, if Private(id) then [PrivateNameNotAllowed] else [], Some(line));
      AddedAllClean(State([], s.tables), if Private(id) then [PrivateNameNotAllowed] else [], Some(line));
    case Attribute(_, _, line) =>
      AddedAllClean(s, AttributeCodes(n, s.tables), Some(line));
      AddedAllClean(State([], s.tables), AttributeCodes(n, s.tables), Some(line));
    case Call(func, _, line) =>
      AddedAllClean(s, CallCodes(func, s.tables, functions), Some(line));
      AddedAllClean(State([], s.tables), CallCodes(func, s.tables, {}), Some(line));
    case Import(names, line) => EnterImportsClean(s, names, line, []);
    case ImportFrom(level, origin, names, line) =>
      AddedAllClean(s, [RelativeImportNotAllowed], Some(line));
      AddedAllClean(s, [ImportNotAllowed], Some(line));
      AddedAllClean(State([], s.tables), [RelativeImportNotAllowed], Some(line));
      AddedAllClean(State([], s.tables), [ImportNotAllowed], Some(line));
      if origin.Some? { EnterFromClean(s, origin.value, names, line, []); }
    case FunctionDef(name, params, _, decorators, _, line) =>
      AddedAllClean(s, FunctionCodes(name, params, decorators), Some(line));
      AddedAllClean(State([], s.tables), FunctionCodes(name, params, decorators), Some(line));
    case _ =>
      AddedAllClean(s, if ForbiddenNode(n) then [SyntaxNotAllowed] else [], Some(n.line));
      AddedAllClean(State([], s.tables), if ForbiddenNode(n) then [SyntaxNotAllowed] else [], Some(n.line));
  }

  lemma {:induction false} FoldClean(s: State, nodes: seq<Node>, functions: set<string>)
    ensures Fold(s, nodes, functions).violations == []
       <==> s.violations == [] && CleanRun(nodes, s.tables, functions)
    decreases |nodes|
  {
    hide Enter, NodeClean, TablesAfter;
    if nodes != [] {
      EnterClean(s, nodes[0], functions);
      FoldClean(Enter(s, nodes[0], functions), nodes[1..], functions);
    }
  }

  ghost predicate TopLevelClean(body: seq<Node>) {
    forall i | 0 <= i < |body| :: TopLevelCodes(body[i]) == []
  }

  ghost predicate EntrypointClean(body: seq<Node>) {
    && |Entrypoints(body)| == 1
    && var f := Entrypoints(body)[0];
       f.FunctionDef? && SignatureOk(f.params, f.decorators) && AnyReturns(f.body)
  }

  lemma {:induction false} TopLevelPass(s: State, body: seq<Node>)
    ensures TopLevel(s, body).violations == [] <==> s.violations == [] && TopLevelClean(body)
    ensures TopLevel(s, body).tables == s.tables
    decreases |body|
  {
    hide TopLevelCodes;
    if body != [] {
      AddedAllClean(s, TopLevelCodes(body[0]), Some(body[0].line));
      TopLevelPass(AddedAll(s, TopLevelCodes(body[0]), Some(body[0].line)), body[1..]);
      assert TopLevelClean(body) <==> TopLevelCodes(body[0]) == [] && TopLevelClean(body[1..]) by {
        assert forall i | 0 < i < |body| :: body[i] == body[1..][i - 1];
      }
    }
  }

  lemma EntrypointPass(s: State, body: seq<Node>)
    ensures Entrypoint(s, body).violations == [] <==> s.violations == [] && EntrypointClean(body)
    ensures Entrypoint(s, body).tables == s.tables
  {
    hide SignatureOk, AnyReturns;
    var matches := Entrypoints(body);
    if |matches| == 1 && matches[0].FunctionDef? {
      var f := matches[0];
      AddedAllClean(s, (if SignatureOk(f.params, f.decorators) then [] else [EntrypointSignatureInvalid])
                       + (if AnyReturns(f.body) then [] else [EntrypointReturnMissing]), Some(f.line));
    }
  }

  ghost predicate ViolationFree(body: seq<Node>) {
    Validated(body).violations == []
  }

  /** The verdict is clean exactly when each of the three passes is, node by node in visiting order. */
  lemma ViolationFreeExactly(body: seq<Node>)
    ensures ViolationFree(body) <==>
              && TopLevelClean(body) && EntrypointClean(body)
              && CleanRun(Preorder(Module(body)), START.tables, FunctionNames(body))
  {
    hide CleanRun, Fold, Preorder, TopLevel, Entrypoint;
    TopLevelPass(START, body);
    EntrypointPass(TopLevel(START, body), body);
    FoldClean(Entrypoint(TopLevel(START, body), body), Preorder(Module(body)), FunctionNames(body));
  }

  // ------------------------------------------------ what the tables hold

  ghost function FinalTables(nodes: seq<Node>, t: Tables): Tables
    decreases |nodes|
  {
    if nodes == [] then t else FinalTables(nodes[1..], TablesAfter(nodes[0], t))
  }

  lemma {:induction false} FinalTablesLast(nodes: seq<Node>, n: Node, t: Tables)
    ensures FinalTables(nodes + [n], t) == TablesAfter(n, FinalTables(nodes, t))
    decreases |nodes|
  {
    hide TablesAfter;
    if nodes == [] {
      assert [n][1..] == [];
      assert nodes + [n] == [n];
    } else {
      assert (nodes + [n])[1..] == nodes[1..] + [n];
      FinalTablesLast(nodes[1..], n, TablesAfter(nodes[0], t));
    }
  }

  /** The module the last of these aliases binds the name to. */
  ghost function LastAlias(names: seq<Alias>, name: string): Option<string> {
    if names == [] then None
    else
      var alias := names[|names| - 1];
      if KnownModule(alias.name) && !Private(Bound(alias)) && Bound(alias) == name then Some(alias.name)
      else LastAlias(names[..|names| - 1], name)
  }

  /** The module to which the last import among these nodes binds the name. */
  ghost function LastImport(nodes: seq<Node>, name: string): Option<string> {
    if nodes == [] then None
    else
      var last, front := nodes[|nodes| - 1], nodes[..|nodes| - 1];
      if last.Import? && LastAlias(last.names, name).Some? then LastAlias(last.names, name)
      else LastImport(front, name)
  }

  predicate CallableSymbol(origin: string, name: string) {
    SymbolOf(origin, name) && name != "*" && (origin == "cadquery" || MathCall(name))
  }

  /** This alias of a from-import makes the name callable. */
  predicate MakesCallable(origin: string, alias: Alias, name: string) {
    CallableSymbol(origin, alias.name) && !Private(Bound(alias)) && Bound(alias) == name
  }

  /** This statement imports a callable symbol under the name. */
  ghost predicate ImportsCallable(n: Node, name: string) {
    && n.ImportFrom? && n.level == 0 && n.origin.Some? && KnownModule(n.origin.value)
    && exists i | 0 <= i < |n.names| :: MakesCallable(n.origin.value, n.names[i], name)
  }

  lemma NoTableChange(n: Node, t: Tables)
    requires !n.Import? && !n.ImportFrom?
    ensures TablesAfter(n, t) == t
  {
    hide AttributeCodes, CallCodes, FunctionCodes, Private;
    forall codes, line ensures AddedAll(State([], t), codes, line).tables == t {
      AddedAllClean(State([], t), codes, line);
    }
  }

  lemma {:induction false} ImportsBind(s: State, names: seq<Alias>, line: int, name: string)
    ensures var t := EnterImports(s, names, line).tables;
            && Get(t.aliases, name)
               == (if LastAlias(names, name).Some? then LastAlias(names, name) else Get(s.tables.aliases, name))
            && t.calls == s.tables.calls
    decreases |names|
  {
    hide Private, KnownModule, Bound;
    if names != [] {
      var front, alias := names[..|names| - 1], names[|names| - 1];
      assert names == front + [alias];
      ImportsAppend(s, front, alias, line);
      ImportsBind(s, front, line, name);
    }
  }

  lemma {:induction false} ImportsAppend(s: State, names: seq<Alias>, alias: Alias, line: int)
    ensures EnterImports(s, names + [alias], line).tables
         == ImportTables(alias, EnterImports(s, names, line).tables)
    decreases |names|
  {
    hide ImportTables, ImportCodes;
    if names == [] {
      assert names + [alias] == [alias] && [alias][1..] == [];
    } else {
      assert (names + [alias])[1..] == names[1..] + [alias];
      ImportsAppend(EnterImport(s, names[0], line), names[1..], alias, line);
    }
  }

  lemma {:induction false} FromMakesCallable(s: State, origin: string, names: seq<Alias>, line: int, name: string)
    ensures EnterFrom(s, origin, names, line).tables.aliases == s.tables.aliases
    ensures name in EnterFrom(s, origin, names, line).tables.calls <==>
            name in s.tables.calls || exists i | 0 <= i < |names| :: MakesCallable(origin, names[i], name)
    decreases |names|
  {
    hide SymbolOf, MathCall, Bound, Private;
    if names != [] {
      var next := EnterFromName(s, origin, names[0], line);
      FromMakesCallable(next, origin, names[1..], line, name);
      assert forall i | 0 < i < |names| :: names[i] == names[1..][i - 1];
      assert name in next.tables.calls <==> name in s.tables.calls || MakesCallable(origin, names[0], name);
    }
  }

  /** What one node does to the entries of a name. */
  lemma EntryAfter(n: Node, t: Tables, name: string)
    ensures Get(TablesAfter(n, t).aliases, name)
         == if n.Import? && LastAlias(n.names, name).Some? then LastAlias(n.names, name) else Get(t.aliases, name)
    ensures name in TablesAfter(n, t).calls <==> name in t.calls || ImportsCallable(n, name)
  {
    var s := State([], t);
    hide AddedAll, EnterFrom, EnterImports, SymbolOf, Bound, LastAlias, MakesCallable;
    match n
    case Import(names, line) => ImportsBind(s, names, line, name);
    case ImportFrom(level, origin, names, line) =>
      AddedAllClean(s, [RelativeImportNotAllowed], Some(line));
      AddedAllClean(s, [ImportNotAllowed], Some(line));
      if origin.Some? { FromMakesCallable(s, origin.value, names, line, name); }
    case _ => NoTableChange(n, t);
  }

  /** Before a node the alias of a name is its last import so far, and a name is callable once imported as such. */
  lemma {:induction false} TablesAreImports(nodes: seq<Node>, name: string)
    ensures Get(FinalTables(nodes, START.tables).aliases, name) == LastImport(nodes, name)
    ensures name in FinalTables(nodes, START.tables).calls <==>
            exists j | 0 <= j < |nodes| :: ImportsCallable(nodes[j], name)
    decreases |nodes|
  {
    hide TablesAfter, ImportsCallable, LastAlias;
    if nodes != [] {
      var front, last := nodes[..|nodes| - 1], nodes[|nodes| - 1];
      assert nodes == front + [last];
      FinalTablesLast(front, last, START.tables);
      EntryAfter(last, FinalTables(front, START.tables), name);
      TablesAreImports(front, name);
      if j :| 0 <= j < |front| && ImportsCallable(front[j], name) { assert ImportsCallable(nodes[j], name); }
      if j :| 0 <= j < |nodes| && ImportsCallable(nodes[j], name) {
        assert j < |front| ==> ImportsCallable(front[j], name);
      }
    }
  }

  // ---------------------------------------- violation-free, position by position

  /** What an attribute chain on a module may look like. */
  predicate ChainAllowed(origin: Option<string>, attributes: seq<string>)
    requires attributes != []
  {
    && (origin == Some("cadquery") ==>
          && !ForbiddenModule(attributes[0])
          && (|attributes| == 1 ==> CadQuerySymbol(attributes[0]) || MethodCall(attributes[0])))
    && (origin == Some("math") ==> |attributes| == 1 && MathSymbol(attributes[0]))
  }

  /** What a called attribute chain may end in: a symbol of the module it hangs on directly, or a CadQuery method. */
  predicate LeafAllowed(origin: Option<string>, attributes: seq<string>)
    requires attributes != []
  {
    var leaf := attributes[|attributes| - 1];
    if |attributes| == 1 && origin == Some("cadquery") then CadQuerySymbol(leaf)
    else if |attributes| == 1 && origin == Some("math") then MathCall(leaf)
    else MethodCall(leaf)
  }

  /** The module a chain starts from, by the last import of its root before position i. */
  ghost function RootModule(nodes: seq<Node>, i: nat, n: Node): Option<string>
    requires i <= |nodes|
  {
    if ChainRoot(n).Some? then LastImport(nodes[..i], ChainRoot(n).value) else None
  }

  ghost predicate CallableBefore(nodes: seq<Node>, i: nat, name: string)
    requires i <= |nodes|
  {
    exists j | 0 <= j < i :: ImportsCallable(nodes[j], name)
  }

  ghost predicate CalleeAllowed(func: Node, nodes: seq<Node>, i: nat, functions: set<string>)
    requires i <= |nodes|
  {
    match func
    case Name(id, _, _) =>
      !ForbiddenCall(id) && (BuiltinCall(id) || CallableBefore(nodes, i, id) || id in functions)
    case Attribute(_, _, _) => LeafAllowed(RootModule(nodes, i, func), ChainAttributes(func))
    case _ => false
  }

  /** All the rules on the node at position i of the visit, in terms of the program alone. */
  ghost predicate NodeAllowed(nodes: seq<Node>, i: nat, functions: set<string>)
    requires i < |nodes|
  {
    var n := nodes[i];
    match n
    case Name(id, _, _) => !Private(id)
    case Attribute(_, attr, _) => !Private(attr) && ChainAllowed(RootModule(nodes, i, n), ChainAttributes(n))
    case Call(func, _, _) => CalleeAllowed(func, nodes, i, functions)
    case Import(names, _) => forall k | 0 <= k < |names| :: KnownModule(names[k].name) && !Private(Bound(names[k]))
    case ImportFrom(level, origin, names, _) =>
      && level == 0 && origin.Some? && KnownModule(origin.value)
      && forall k | 0 <= k < |names| ::
           names[k].name != "*" && SymbolOf(origin.value, names[k].name) && !Private(Bound(names[k]))
    case FunctionDef(name, params, _, decorators, _, _) =>
      !Private(name) && decorators == [] && params.defaults == 0 && true !in params.kwDefaults
    case _ => !ForbiddenNode(n)
  }

  lemma ModuleAtPosition(nodes: seq<Node>, i: nat, n: Node)
    requires i <= |nodes|
    ensures ModuleOf(ChainRoot(n), FinalTables(nodes[..i], START.tables)) == RootModule(nodes, i, n)
  {
    hide FinalTables;
    if ChainRoot(n).Some? { TablesAreImports(nodes[..i], ChainRoot(n).value); }
  }

  lemma CallAllowedExactly(func: Node, nodes: seq<Node>, i: nat, functions: set<string>)
    requires i <= |nodes|
    ensures CallCodes(func, FinalTables(nodes[..i], START.tables), functions) == [] <==>
            CalleeAllowed(func, nodes, i, functions)
  {
    hide FinalTables, ImportsCallable, RootModule, CadQuerySymbol, MathCall, MethodCall, BuiltinCall, ForbiddenCall;
    match func
    case Name(id, _, _) =>
      TablesAreImports(nodes[..i], id);
      assert forall j | 0 <= j < i :: nodes[..i][j] == nodes[j];
      assert CallableBefore(nodes, i, id) <==> id in FinalTables(nodes[..i], START.tables).calls;
    case Attribute(_, _, _) => ModuleAtPosition(nodes, i, func);
    case _ =>
  }

  lemma NodeAllowedExactly(nodes: seq<Node>, i: nat, functions: set<string>)
    requires i < |nodes|
    ensures NodeClean(nodes[i], FinalTables(nodes[..i], START.tables), functions) <==> NodeAllowed(nodes, i, functions)
  {
    hide FinalTables, RootModule, CalleeAllowed, CallCodes, ModuleOf, Private, KnownModule, SymbolOf, Bound;
    hide CadQuerySymbol, MathSymbol, MethodCall, ForbiddenModule;
    var n := nodes[i];
    match n
    case Attribute(_, _, _) => ModuleAtPosition(nodes, i, n);
    case Call(func, _, _) => CallAllowedExactly(func, nodes, i, functions);
    case Import(names, _) =>
      forall k | 0 <= k < |names|
        ensures ImportCodes(names[k]) == [] <==> KnownModule(names[k].name) && !Private(Bound(names[k])) { }
    case ImportFrom(_, origin, names, _) =>
      if origin.Some? {
        forall k | 0 <= k < |names|
          ensures FromCodes(origin.value, names[k]) == [] <==>
                  names[k].name != "*" && SymbolOf(origin.value, names[k].name) && !Private(Bound(names[k])) { }
      }
    case _ =>
  }

  lemma {:induction false} CleanRunExactly(nodes: seq<Node>, k: nat, functions: set<string>)
    requires k <= |nodes|
    ensures CleanRun(nodes[k..], FinalTables(nodes[..k], START.tables), functions) <==>
            forall i | k <= i < |nodes| :: NodeAllowed(nodes, i, functions)
    decreases |nodes| - k
  {
    hide NodeClean, NodeAllowed, TablesAfter, FinalTables;
    if k < |nodes| {
      CleanRunExactly(nodes, k + 1, functions);
      NodeAllowedExactly(nodes, k, functions);
      assert nodes[..k + 1] == nodes[..k] + [nodes[k]] && nodes[k..][1..] == nodes[k + 1..];
      FinalTablesLast(nodes[..k], nodes[k], START.tables);
    }
  }

  /** The verdict is clean exactly when every position of the visit obeys the rules. */
  lemma ViolationFreeByPosition(body: seq<Node>)
    ensures var nodes := Preorder(Module(body));
            ViolationFree(body) <==>
              && TopLevelClean(body) && EntrypointClean(body)
              && forall i | 0 <= i < |nodes| :: NodeAllowed(nodes, i, FunctionNames(body))
  {
    hide ViolationFree, TopLevelClean, EntrypointClean, NodeAllowed, CleanRun, Preorder;
    var nodes := Preorder(Module(body));
    ViolationFreeExactly(body);
    CleanRunExactly(nodes, 0, FunctionNames(body));
    assert nodes[0..] == nodes && nodes[..0] == [] && FinalTables([], START.tables) == START.tables;
  }

  /** The visit of a list of nodes, one after the other. */
  ghost function Flat(nodes: seq<Node>): seq<Node> {
    if nodes == [] then [] else Preorder(nodes[0]) + Flat(nodes[1..])
  }

  lemma {:induction false} FlatIsPreorder(nodes: seq<Node>, bound: Node)
    requires forall i | 0 <= i < |nodes| :: nodes[i] < bound
    ensures PreorderAll(nodes, bound) == Flat(nodes)
    decreases |nodes|
  {
    hide Preorder;
    if nodes != [] { FlatIsPreorder(nodes[1..], bound); }
  }

  lemma PreorderIs(n: Node)
    ensures Preorder(n) == [n] + Flat(Children(n))
  {
    ChildrenSmaller(n);
    FlatIsPreorder(Children(n), n);
  }

  lemma {:induction false} FlatConcat(x: seq<Node>, y: seq<Node>)
    ensures Flat(x + y) == Flat(x) + Flat(y)
    decreases |x|
  {
    hide Preorder;
    if x == [] {
      assert x + y == y;
    } else {
      assert (x + y)[1..] == x[1..] + y;
      FlatConcat(x[1..], y);
    }
  }

  lemma FlatOne(n: Node)
    ensures Flat([n]) == Preorder(n)
  {
    hide Preorder;
    assert [n][1..] == [];
  }

  /** n is the tree itself or lies anywhere below it. */
  ghost predicate Within(n: Node, tree: Node)
    decreases tree
  {
    ChildrenSmaller(tree);
    n == tree || exists i | 0 <= i < |Children(tree)| :: Within(n, Children(tree)[i])
  }

  lemma WithinItself(n: Node)
    ensures Within(n, n)
  {
  }

  lemma WithinParent(n: Node, c: Node, m: Node)
    requires Within(n, c) && c in Children(m)
    ensures Within(n, m)
  {
    ChildrenSmaller(m);
    var i :| 0 <= i < |Children(m)| && Children(m)[i] == c;
  }

  lemma {:induction false} WithinTransitive(n: Node, c: Node, m: Node)
    requires Within(n, c) && Within(c, m)
    ensures Within(n, m)
    decreases m
  {
    if c != m {
      ChildrenSmaller(m);
      var i :| 0 <= i < |Children(m)| && Within(c, Children(m)[i]);
      WithinTransitive(n, c, Children(m)[i]);
    }
  }

  lemma {:induction false} WithinIsVisited(n: Node, tree: Node)
    requires Within(n, tree)
    ensures n in Preorder(tree)
    decreases tree
  {
    ChildrenSmaller(tree);
    if n != tree {
      var i :| 0 <= i < |Children(tree)| && Within(n, Children(tree)[i]);
      WithinIsVisited(n, Children(tree)[i]);
      ChildIsVisited(n, Children(tree), tree, i);
    }
  }

  lemma {:induction false} ChildIsVisited(n: Node, nodes: seq<Node>, bound: Node, i: nat)
    requires forall j | 0 <= j < |nodes| :: nodes[j] < bound
    requires i < |nodes| && n in Preorder(nodes[i])
    ensures n in PreorderAll(nodes, bound)
    decreases |nodes|
  {
    if i > 0 {
      ChildIsVisited(n, nodes[1..], bound, i - 1);
    }
  }

  /** Every node of a violation-free program, at any depth, is visited at some position and obeys the rules there. */
  lemma ViolationFreeIsSafe(body: seq<Node>, n: Node)
    requires ViolationFree(body) && Within(n, Module(body))
    ensures var nodes := Preorder(Module(body));
            && (exists i | 0 <= i < |nodes| :: nodes[i] == n)
            && forall i | 0 <= i < |nodes| && nodes[i] == n :: NodeAllowed(nodes, i, FunctionNames(body))
  {
    hide NodeAllowed, ViolationFree;
    ViolationFreeByPosition(body);
    WithinIsVisited(n, Module(body));
  }

  // -------------------------------------------------------------- no repeats

  ghost predicate NoRepeats(s: State) {
    forall i, j | 0 <= i < j < |s.violations| :: s.violations[i] != s.violations[j]
  }

  lemma {:induction false} AddedAllNoRepeats(s: State, codes: seq<Code>, line: Option<int>)
    requires NoRepeats(s)
    ensures NoRepeats(AddedAll(s, codes, line))
    decreases |codes|
  {
    if codes != [] {
      AddedAllNoRepeats(Added(s, codes[0], line), codes[1..], line);
    }
  }

  lemma {:induction false} EnterImportsNoRepeats(s: State, names: seq<Alias>, line: int)
    requires NoRepeats(s)
    ensures NoRepeats(EnterImports(s, names, line))
    decreases |names|
  {
    if names != [] {
      AddedAllNoRepeats(s, ImportCodes(names[0]), Some(line));
      EnterImportsNoRepeats(EnterImport(s, names[0], line), names[1..], line);
    }
  }

  lemma {:induction false} EnterFromNoRepeats(s: State, origin: string, names: seq<Alias>, line: int)
    requires NoRepeats(s)
    ensures NoRepeats(EnterFrom(s, origin, names, line))
    decreases |names|
  {
    if names != [] {
      AddedAllNoRepeats(s, FromCodes(origin, names[0]), Some(line));
      EnterFromNoRepeats(EnterFromName(s, origin, names[0], line), origin, names[1..], line);
    }
  }

  lemma EnterNoRepeats(s: State, n: Node, functions: set<string>)
    requires NoRepeats(s)
    ensures NoRepeats(Enter(s, n, functions))
  {
    hide AttributeCodes, CallCodes, FunctionCodes, AddedAll, EnterImports, EnterFrom, Private;
    forall codes, line ensures NoRepeats(AddedAll(s, codes, line)) { AddedAllNoRepeats(s, codes, line); }
    match n
    case Import(names, line) => EnterImportsNoRepeats(s, names, line);
    case ImportFrom(_, origin, names, line) =>
      if origin.Some? { EnterFromNoRepeats(s, origin.value, names, line); }
    case _ =>
  }

  lemma {:induction false} FoldNoRepeats(s: State, nodes: seq<Node>, functions: set<string>)
    requires NoRepeats(s)
    ensures NoRepeats(Fold(s, nodes, functions))
    decreases |nodes|
  {
    hide Enter;
    if nodes != [] {
      EnterNoRepeats(s, nodes[0], functions);
      FoldNoRepeats(Enter(s, nodes[0], functions), nodes[1..], functions);
    }
  }

  lemma {:induction false} TopLevelNoRepeats(s: State, body: seq<Node>)
    requires NoRepeats(s)
    ensures NoRepeats(TopLevel(s, body))
    decreases |body|
  {
    if body != [] {
      AddedAllNoRepeats(s, TopLevelCodes(body[0]), Some(body[0].line));
      TopLevelNoRepeats(AddedAll(s, TopLevelCodes(body[0]), Some(body[0].line)), body[1..]);
    }
  }

  /** Every reported violation is reported once. */
  lemma VerdictHasNoRepeats(body: seq<Node>)
    ensures NoRepeats(Validated(body))
  {
    hide AddedAll, TopLevelCodes, SignatureOk, AnyReturns;
    TopLevelNoRepeats(START, body);
    var top := TopLevel(START, body);
    forall codes, line ensures NoRepeats(AddedAll(top, codes, line)) { AddedAllNoRepeats(top, codes, line); }
    FoldNoRepeats(Entrypoint(top, body), Preorder(Module(body)), FunctionNames(body));
  }
}
