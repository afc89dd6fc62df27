/** Programs the source policy accepts whose names mean something else, each the witness of a condition. */
module SourcePolicyWitnesses {
  import opened Json
  import opened SourcePolicy
  import opened SourcePolicyProperties
  import opened SourcePolicyLimits
  import opened NameResolution
  import opened CalleeResolution
  import opened ModuleReach

  // ------------------------------------------------------- programs with one entry point

  const ENTRY_PARAMS := Params([], ["parameters"], None, [], None, 0, [], [])

  function Entry(statements: seq<Node>): Node {
    FunctionDef(ENTRYPOINT, ENTRY_PARAMS, statements, [], [], 2)
  }

  /** The entry point with other module-level statements around it. */
  function Program(before: seq<Node>, statements: seq<Node>, after: seq<Node>): seq<Node> {
    before + [Entry(statements)] + after
  }

  /** Imports, and functions other than the entry point. */
  predicate Beside(nodes: seq<Node>) {
    forall i | 0 <= i < |nodes| :: nodes[i].Import? || (nodes[i].FunctionDef? && nodes[i].name != ENTRYPOINT)
  }

  lemma {:induction false} NoEntrypoints(nodes: seq<Node>)
    requires Beside(nodes)
    ensures Entrypoints(nodes) == []
  {
    if nodes != [] { NoEntrypoints(nodes[..|nodes| - 1]); }
  }

  lemma {:induction false} EntrypointsConcat(x: seq<Node>, y: seq<Node>)
    ensures Entrypoints(x + y) == Entrypoints(x) + Entrypoints(y)
  {
    if y == [] {
      assert x + y == x;
    } else {
      assert (x + y)[..|x + y| - 1] == x + y[..|y| - 1];
      EntrypointsConcat(x, y[..|y| - 1]);
    }
  }

  lemma ProgramShape(before: seq<Node>, statements: seq<Node>, after: seq<Node>)
    requires Beside(before) && Beside(after) && AnyReturns(statements)
    ensures EntrypointClean(Program(before, statements, after)) && TopLevelClean(Program(before, statements, after))
  {
    hide EntrypointClean, TopLevelClean, AnyReturns, Beside;
    ProgramEntrypoint(before, statements, after);
    ProgramTopLevel(before, statements, after);
  }

  lemma ProgramEntrypoint(before: seq<Node>, statements: seq<Node>, after: seq<Node>)
    requires Beside(before) && Beside(after) && AnyReturns(statements)
    ensures EntrypointClean(Program(before, statements, after))
  {
    hide AnyReturns, Beside, Entrypoints;
    var entry := Entry(statements);
    NoEntrypoints(before);
    NoEntrypoints(after);
    EntrypointsConcat(before + [entry], after);
    EntrypointsConcat(before, [entry]);
    OneEntrypoint(entry);
    assert Entrypoints(Program(before, statements, after)) == [entry];
  }

  lemma OneEntrypoint(entry: Node)
    requires entry.FunctionDef? && entry.name == ENTRYPOINT
    ensures Entrypoints([entry]) == [entry]
  {
    assert [entry][..0] == [] && Entrypoints([]) == [];
  }

  lemma ProgramTopLevel(before: seq<Node>, statements: seq<Node>, after: seq<Node>)
    requires Beside(before) && Beside(after)
    ensures TopLevelClean(Program(before, statements, after))
  {
    hide IsStaticValue, IsStaticTarget;
    var body := Program(before, statements, after);
    forall i | 0 <= i < |body| ensures TopLevelCodes(body[i]) == [] {
      assert body[i] == Entry(statements) || body[i] in before || body[i] in after;
    }
  }

  /** A program is accepted when what stands before, in and after its entry point is clean one after the other. */
  lemma ProgramAccepted(before: seq<Node>, statements: seq<Node>, after: seq<Node>, t: Tables)
    requires Beside(before) && Beside(after) && AnyReturns(statements)
    requires var functions := FunctionNames(Program(before, statements, after));
             && CleanRun(Flat(before), START.tables, functions) && FinalTables(Flat(before), START.tables) == t
             && AllHarmless(statements, t, functions) && CleanRun(Flat(after), t, functions)
    ensures ViolationFree(Program(before, statements, after))
  {
    hide CleanRun, FinalTables, ViolationFree, EntrypointClean, TopLevelClean, AnyReturns, Beside, Harmless, Flat;
    hide FunctionNames, Preorder;
    var body, entry := Program(before, statements, after), Entry(statements);
    var module_, functions := Module(body), FunctionNames(body);
    ProgramShape(before, statements, after);
    EntryHarmless(statements, t, functions);
    HarmlessIs(entry, t, functions);
    PreorderIs(module_);
    assert Children(module_) == before + [entry] + after;
    FlatConcat(before + [entry], after);
    FlatConcat(before, [entry]);
    FlatOne(entry);
    ModuleRun(module_, START.tables, functions);
    CleanRunConcat(Flat(before), Preorder(entry), START.tables, functions);
    CleanRunConcat(Flat(before) + Preorder(entry), Flat(after), START.tables, functions);
    CleanRunConcat([module_], Flat(body), START.tables, functions);
    ViolationFreeExactly(body);
  }

  lemma ModuleRun(m: Node, t: Tables, functions: set<string>)
    requires m.Other? && m.other.Plain?
    ensures CleanRun([m], t, functions) && FinalTables([m], t) == t
  {
    assert NodeClean(m, t, functions);
    NoTableChange(m, t);
    hide CleanRun, FinalTables, NodeClean;
    OneRun(m, t, functions);
  }

  lemma EntryHarmless(statements: seq<Node>, t: Tables, functions: set<string>)
    requires AllHarmless(statements, t, functions)
    ensures Harmless(Entry(statements), t, functions)
  {
    hide Harmless;
    assert !Private(ENTRYPOINT) by { PublicNames(); }
    assert Children(Entry(statements)) == statements;
    HarmlessNode(Entry(statements), t, functions);
  }

  lemma PublicNames()
    ensures !Private("parameters") && !Private(ENTRYPOINT) && !Private("object") && !Private("cq") && !Private("w")
    ensures !Private("foo") && !Private("exporters") && !Private("export")
  {
  }

  /** The scopes open in the entry point. */
  function Inside(body: seq<Node>, statements: seq<Node>): seq<Node> {
    [Module(body), Entry(statements)]
  }

  lemma StatementOccurs(before: seq<Node>, statements: seq<Node>, after: seq<Node>, i: nat)
    requires i < |statements|
    ensures var body := Program(before, statements, after);
            Occurs(body, statements[i], Inside(body, statements))
  {
    var body, entry := Program(before, statements, after), Entry(statements);
    var outer, inner := [Module(body)], Inside(body, statements);
    assert body[|before|] == entry && outer + [entry] == inner;
    assert Part(entry, outer, statements[i], inner);
    assert At(statements[i], inner, statements[i], inner);
    assert At(entry, outer, statements[i], inner);
  }

  lemma OccursBelow(body: seq<Node>, m: Node, scopes: seq<Node>, c: Node, inner: seq<Node>)
    requires Occurs(body, m, scopes) && Part(m, scopes, c, inner) && c < m
    ensures Occurs(body, c, inner)
  {
    var k :| 0 <= k < |body| && At(body[k], [Module(body)], m, scopes);
    AtBelow(body[k], [Module(body)], m, scopes, c, inner);
  }

  lemma {:induction false} AtBelow(
      top: Node, outer: seq<Node>, m: Node, scopes: seq<Node>, c: Node, inner: seq<Node>)
    requires At(top, outer, m, scopes) && Part(m, scopes, c, inner) && c < m
    ensures At(top, outer, c, inner)
    decreases top
  {
    assert At(c, inner, c, inner);
    if !(m == top && scopes == outer) {
      var d, s :| d < top && Part(top, outer, d, s) && At(d, s, m, scopes);
      AtBelow(d, s, m, scopes, c, inner);
    }
  }

  // --------------------------------------------------------- names that nothing binds

  /** No node of the tree binds the name. */
  ghost predicate BoundNowhere(n: Node, f: string)
    decreases n
  {
    ChildrenSmaller(n);
    (forall o :: !NodeBinds(n, f, o)) && forall i | 0 <= i < |Children(n)| :: BoundNowhere(Children(n)[i], f)
  }

  ghost predicate AllBoundNowhere(nodes: seq<Node>, f: string) {
    forall i | 0 <= i < |nodes| :: BoundNowhere(nodes[i], f)
  }

  lemma NowhereNode(n: Node, f: string)
    requires (forall o :: !NodeBinds(n, f, o)) && AllBoundNowhere(Children(n), f)
    ensures BoundNowhere(n, f)
  {
    hide NodeBinds, Children;
  }

  /** A node that cannot bind any name itself. */
  lemma NowherePlain(n: Node, f: string)
    requires !n.Import? && !n.ImportFrom? && !n.FunctionDef? && !n.AnnAssign? && !n.Capture? && !n.Name?
    requires AllBoundNowhere(Children(n), f)
    ensures BoundNowhere(n, f)
  {
    hide Children, BoundNowhere;
    NowhereNode(n, f);
  }

  lemma NowhereName(x: string, store: bool, line: int, f: string)
    requires store ==> x != f
    ensures BoundNowhere(Name(x, store, line), f)
  {
  }

  lemma {:induction false} BoundNowhereWithin(m: Node, n: Node, f: string)
    requires BoundNowhere(n, f) && Within(m, n)
    ensures forall o :: !NodeBinds(m, f, o)
    decreases n
  {
    hide NodeBinds;
    if m != n {
      ChildrenSmaller(n);
      var i :| 0 <= i < |Children(n)| && Within(m, Children(n)[i]);
      BoundNowhereWithin(m, Children(n)[i], f);
    }
  }

  lemma NowhereContributes(n: Node, f: string, o: Origin)
    requires BoundNowhere(n, f)
    ensures !Contributes(n, f, o)
  {
    hide Contributes, NodeBinds, Within, BoundNowhere;
    if Contributes(n, f, o) {
      ContributesHasBinder(n, f, o);
      var m :| Within(m, n) && NodeBinds(m, f, o);
      BoundNowhereWithin(m, n, f);
    }
  }

  lemma EntryParameters()
    ensures AllParameters(ENTRY_PARAMS) == ["parameters"]
  {
  }

  /** A name the entry point does not bind is looked up in the module. */
  lemma DecidedByModule(body: seq<Node>, statements: seq<Node>, name: string)
    requires AllBoundNowhere(statements, name) && name != "parameters"
    ensures Deciding(Inside(body, statements), name) == 0
  {
    hide Contributes, AllParameters, BoundNowhere;
    EntryParameters();
    forall o ensures !ScopeBinds(Entry(statements), name, o) {
      forall i | 0 <= i < |statements| ensures !Contributes(statements[i], name, o) {
        NowhereContributes(statements[i], name, o);
      }
    }
    hide ScopeBinds;
    assert Inside(body, statements)[..1] == [Module(body)];
  }

  // ---------------------------------------------------------------- statements and expressions

  lemma HarmlessName(f: string, store: bool, line: int, t: Tables, functions: set<string>)
    requires !Private(f)
    ensures Harmless(Name(f, store, line), t, functions)
  {
    hide Harmless;
    HarmlessNode(Name(f, store, line), t, functions);
  }

  function Parameters(): Node {
    Name("parameters", false, 3)
  }

  function CallOf(f: string): Node {
    Call(Name(f, false, 3), [Parameters()], 3)
  }

  function ReturnCall(f: string): Node {
    Return([CallOf(f)], 3)
  }

  function Bind(f: string, rhs: Node): Node {
    Assign([Name(f, true, 3)], rhs, 3)
  }

  lemma ReturnCallHarmless(f: string, t: Tables, functions: set<string>)
    requires !Private(f) && !ForbiddenCall(f) && (BuiltinCall(f) || f in t.calls)
    ensures Harmless(ReturnCall(f), t, functions)
  {
    hide Harmless, BuiltinCall, ForbiddenCall, Private;
    PublicNames();
    HarmlessName(f, false, 3, t, functions);
    HarmlessName("parameters", false, 3, t, functions);
    HarmlessNode(CallOf(f), t, functions);
    HarmlessNode(ReturnCall(f), t, functions);
  }

  lemma BindHarmless(f: string, rhs: Node, t: Tables, functions: set<string>)
    requires !Private(f) && Harmless(rhs, t, functions)
    ensures Harmless(Bind(f, rhs), t, functions)
  {
    hide Harmless, Private;
    HarmlessName(f, true, 3, t, functions);
    HarmlessNode(Bind(f, rhs), t, functions);
  }

  lemma OneHarmless(n: Node, t: Tables, functions: set<string>)
    requires Harmless(n, t, functions)
    ensures AllHarmless([n], t, functions)
  {
  }

  lemma TwoHarmless(m: Node, n: Node, t: Tables, functions: set<string>)
    requires Harmless(m, t, functions) && Harmless(n, t, functions)
    ensures AllHarmless([m, n], t, functions)
  {
    hide Harmless;
  }

  lemma ReturnsLast(statements: seq<Node>)
    requires statements != [] && statements[|statements| - 1].Return?
    ensures AnyReturns(statements)
  {
    assert ReturnsIn(statements[|statements| - 1]);
  }

  lemma ReturnCallBinds(f: string, name: string)
    ensures BoundNowhere(ReturnCall(f), name)
  {
    hide BoundNowhere;
    NowhereName(f, false, 3, name);
    NowhereName("parameters", false, 3, name);
    assert Children(CallOf(f)) == [Name(f, false, 3), Parameters()];
    NowherePlain(CallOf(f), name);
    assert Children(ReturnCall(f)) == [CallOf(f)];
    NowherePlain(ReturnCall(f), name);
  }

  lemma ReturnedCallOccurs(before: seq<Node>, statements: seq<Node>, after: seq<Node>, f: string)
    requires statements != [] && statements[|statements| - 1] == ReturnCall(f)
    ensures var body := Program(before, statements, after);
            Occurs(body, CallOf(f), Inside(body, statements))
  {
    hide Occurs, Program;
    var body := Program(before, statements, after);
    StatementOccurs(before, statements, after, |statements| - 1);
    assert ReturnCall(f).result[0] == CallOf(f);
    assert Children(ReturnCall(f)) == [CallOf(f)];
    OccursBelow(body, ReturnCall(f), Inside(body, statements), CallOf(f), Inside(body, statements));
  }

  // ------------------------------------------------------------------ a shadowed builtin

  function Shadowing(f: string): seq<Node> {
    [Bind(f, Parameters()), ReturnCall(f)]
  }

  /**
   * Local rebinding is not tracked: a shadowed builtin is still accepted as a callee, and what is called can be what
   * was assigned.
   */
  lemma ShadowedBuiltinAccepted(f: string, builtins: string -> bool, exposing: Exposing)
    requires BuiltinCall(f) && !ForbiddenCall(f) && !Private(f)
    ensures var body := Program([], Shadowing(f), []);
            && ViolationFree(body)
            && Occurs(body, CallOf(f), Inside(body, Shadowing(f)))
            && !AlwaysListed(body, Inside(body, Shadowing(f)), f, builtins, exposing)
  {
    hide BuiltinCall, ForbiddenCall, Harmless, CleanRun, FinalTables, ViolationFree, Occurs, Private, AnyReturns;
    var body, t := Program([], Shadowing(f), []), START.tables;
    PublicNames();
    HarmlessName("parameters", false, 3, t, FunctionNames(body));
    BindHarmless(f, Parameters(), t, FunctionNames(body));
    ReturnCallHarmless(f, t, FunctionNames(body));
    EmptyRun(t, FunctionNames(body));
    ReturnsLast(Shadowing(f));
    ProgramAccepted([], Shadowing(f), [], t);
    ReturnedCallOccurs([], Shadowing(f), [], f);
    AssignedIsUnlisted(body, f, builtins, exposing);
  }

  lemma AssignedIsUnlisted(body: seq<Node>, f: string, builtins: string -> bool, exposing: Exposing)
    ensures !AlwaysListed(body, Inside(body, Shadowing(f)), f, builtins, exposing)
  {
    var entry, scopes := Entry(Shadowing(f)), Inside(body, Shadowing(f));
    assert Contributes(entry.body[0].targets[0], f, Assigned);
    assert Children(entry.body[0])[0] == entry.body[0].targets[0];
    assert Contributes(entry.body[0], f, Assigned);
    assert ScopeBinds(entry, f, Assigned);
    assert Binds(scopes[1], f);
    hide ScopeBinds;
    CalleeListedExactly(body, scopes, f, builtins, exposing);
  }

  // ------------------------------------------------- a refused builtin under another name

  /** Keep the builtin b under the name f, then call f. */
  function Renaming(b: string, f: string): seq<Node> {
    [Bind(f, Name(b, false, 3)), ReturnCall(f)]
  }

  lemma RenamingAccepted(b: string, f: string)
    requires !Private(b) && BuiltinCall(f) && !ForbiddenCall(f) && !Private(f)
    ensures ViolationFree(Program([], Renaming(b, f), []))
  {
    hide BuiltinCall, ForbiddenCall, Harmless, CleanRun, FinalTables, ViolationFree, Private, AnyReturns;
    var body, t := Program([], Renaming(b, f), []), START.tables;
    HarmlessName(b, false, 3, t, FunctionNames(body));
    BindHarmless(f, Name(b, false, 3), t, FunctionNames(body));
    ReturnCallHarmless(f, t, FunctionNames(body));
    EmptyRun(t, FunctionNames(body));
    ReturnsLast(Renaming(b, f));
    ProgramAccepted([], Renaming(b, f), [], t);
  }

  lemma RenamingBindsNowhere(b: string, f: string)
    requires b != f
    ensures AllBoundNowhere(Renaming(b, f), b)
  {
    hide BoundNowhere;
    NowhereName(f, true, 3, b);
    NowhereName(b, false, 3, b);
    assert Children(Bind(f, Name(b, false, 3))) == [Name(f, true, 3), Name(b, false, 3)];
    NowherePlain(Bind(f, Name(b, false, 3)), b);
    ReturnCallBinds(f, b);
  }

  /**
   * Any builtin, refused as a callee or not, may be read, kept under a listed name and called by that name. If it hands
   * out namespaces, the program is exposed without a single attribute.
   */
  lemma RenamedBuiltinExposes(b: string, f: string, builtins: string -> bool, exposing: Exposing)
    requires builtins(b) && !Private(b) && b != "parameters" && b != f && exposing.builtin(b)
    requires BuiltinCall(f) && !ForbiddenCall(f) && !Private(f)
    ensures var body := Program([], Renaming(b, f), []);
            ViolationFree(body) && Exposed(body, builtins, exposing)
  {
    hide BuiltinCall, ForbiddenCall, ViolationFree, Private, Occurs, MayBe, ScopeBinds, AllBoundNowhere, Deciding;
    var statements := Renaming(b, f);
    var body, scopes := Program([], statements, []), Inside(Program([], statements, []), statements);
    RenamingAccepted(b, f);
    RenamingBindsNowhere(b, f);
    DecidedByModule(body, statements, b);
    MayBeExactly(scopes, b, builtins, Found(true, Builtin));
    StatementOccurs([], statements, [], 0);
    assert Children(statements[0])[1] == Name(b, false, 3);
    OccursBelow(body, statements[0], scopes, Name(b, false, 3), scopes);
    assert ReadsBuiltin(body, b, builtins);
  }

  // ------------------------------------------------------ an alias in another function

  function AliasImport(f: string): Node {
    ImportFrom(0, Some("cadquery"), [Alias("Workplane", Some(f))], 1)
  }

  /** A function whose only statement imports Workplane under the name f. */
  function Helper(f: string): Node {
    FunctionDef("helper", Params([], [], None, [], None, 0, [], []), [AliasImport(f)], [], [], 1)
  }

  lemma HelperClean(f: string, functions: set<string>)
    requires f != "" && !Private(f)
    ensures CleanRun(Preorder(Helper(f)), START.tables, functions)
    ensures f in FinalTables(Preorder(Helper(f)), START.tables).calls
  {
    var helper, n := Helper(f), AliasImport(f);
    assert FromCodes("cadquery", n.names[0]) == [];
    assert MakesCallable("cadquery", n.names[0], f);
    assert NodeClean(helper, START.tables, functions) && NodeClean(n, START.tables, functions);
    EntryAfter(n, START.tables, f);
    NoTableChange(helper, START.tables);
    assert Children(helper) == [n] && Children(n) == [];
    hide Preorder, CleanRun, NodeClean, FinalTables, TablesAfter, Helper, AliasImport, Children;
    PreorderIs(helper);
    PreorderIs(n);
    FlatOne(n);
    assert Flat([]) == [] && [n] + [] == [n];
    OneRun(helper, START.tables, functions);
    OneRun(n, START.tables, functions);
    CleanRunConcat([helper], [n], START.tables, functions);
  }

  lemma HelperBeside(f: string)
    ensures Beside([Helper(f)])
  {
    assert "helper"[0] != ENTRYPOINT[0];
  }

  /** An alias in one function makes a name callable in every other, where it still is the unlisted builtin. */
  lemma AliasElsewhereAccepted(f: string, builtins: string -> bool, exposing: Exposing)
    requires f != "" && f != "parameters" && !Private(f) && !ForbiddenCall(f) && !BuiltinCall(f) && builtins(f)
    ensures var body := Program([Helper(f)], [ReturnCall(f)], []);
            && ViolationFree(body)
            && Occurs(body, CallOf(f), Inside(body, [ReturnCall(f)]))
            && MayBe(Inside(body, [ReturnCall(f)]), f, builtins, Found(true, Builtin))
            && !AlwaysListed(body, Inside(body, [ReturnCall(f)]), f, builtins, exposing)
  {
    hide ForbiddenCall, ViolationFree, Occurs, ScopeBinds, BuiltinCall, BoundNowhere, Harmless, CleanRun, Private;
    hide FinalTables, AnyReturns, Helper, Preorder, Deciding, FunctionNames;
    var body, statements := Program([Helper(f)], [ReturnCall(f)], []), [ReturnCall(f)];
    HelperClean(f, FunctionNames(body));
    HelperBeside(f);
    FlatOne(Helper(f));
    var t := FinalTables(Preorder(Helper(f)), START.tables);
    ReturnCallHarmless(f, t, FunctionNames(body));
    EmptyRun(t, FunctionNames(body));
    ReturnsLast(statements);
    ProgramAccepted([Helper(f)], statements, [], t);
    ReturnedCallOccurs([Helper(f)], statements, [], f);
    ReturnCallBinds(f, f);
    DecidedByModule(body, statements, f);
    MayBeExactly(Inside(body, statements), f, builtins, Found(true, Builtin));
    CalleeListedExactly(body, Inside(body, statements), f, builtins, exposing);
  }

  // --------------------------------------------------------- the import of cadquery as cq

  /** `import cadquery as cq` */
  function CqImport(): Node {
    Import([Alias("cadquery", Some("cq"))], 1)
  }

  const CQ_TABLES := Tables(map["cq" := "cadquery"], {}, {"cadquery"})

  lemma CqImportRun(functions: set<string>)
    ensures Beside([CqImport()])
    ensures CleanRun(Flat([CqImport()]), START.tables, functions)
    ensures FinalTables(Flat([CqImport()]), START.tables) == CQ_TABLES
  {
    var n := CqImport();
    assert ImportCodes(Alias("cadquery", Some("cq"))) == [];
    assert NodeClean(n, START.tables, functions);
    assert n.names[1..] == [];
    assert TablesAfter(n, START.tables) == CQ_TABLES;
    hide Preorder, CleanRun, NodeClean, FinalTables, TablesAfter, Flat;
    PreorderIs(n);
    FlatOne(n);
    assert Flat([]) == [] by { EmptyFlat(); }
    assert [n] + Flat([]) == [n];
    OneRun(n, START.tables, functions);
  }

  lemma EmptyFlat()
    ensures Flat([]) == []
  {
  }

  /** Wherever the import stands, a name only it binds is the module in the entry point. */
  lemma CqIsTheModule(body: seq<Node>, statements: seq<Node>, builtins: string -> bool)
    requires CqImport() in body && AllBoundNowhere(statements, "cq")
    ensures MayBeCadQuery(Inside(body, statements), "cq", builtins)
  {
    assert "cq"[0] != "parameters"[0];
    DecidedByModule(body, statements, "cq");
    ImportBindsCq(body);
    hide ScopeBinds, Deciding, AllBoundNowhere;
    MayBeExactly(Inside(body, statements), "cq", builtins, Found(true, ImportedModule("cadquery")));
  }

  lemma ImportBindsCq(body: seq<Node>)
    requires CqImport() in body
    ensures ScopeBinds(Module(body), "cq", ImportedModule("cadquery"))
  {
    assert Bound(CqImport().names[0]) == "cq";
    assert Contributes(CqImport(), "cq", ImportedModule("cadquery"));
    hide Contributes;
    assert Children(Module(body)) == body;
    var i :| 0 <= i < |body| && body[i] == CqImport();
  }

  /** Reading cq as a part of a statement, other than to take an attribute of it, sets the module loose. */
  lemma ReadingCqReleases(
      before: seq<Node>, statements: seq<Node>, after: seq<Node>, i: nat, cq: Node, builtins: string -> bool)
    requires i < |statements| && (statements[i].Assign? || statements[i].Other?) && cq in Children(statements[i])
    requires cq.Name? && cq.id == "cq" && !cq.store
    requires CqImport() in Program(before, statements, after) && AllBoundNowhere(statements, "cq")
    ensures Loose(Program(before, statements, after), builtins)
  {
    hide MayBeCadQuery, Occurs, AllBoundNowhere, Program, Children;
    var body := Program(before, statements, after);
    var scopes := Inside(body, statements);
    StatementOccurs(before, statements, after, i);
    CqIsTheModule(body, statements, builtins);
    var release := Event(statements[i], cq, scopes);
    assert Part(statements[i], scopes, cq, scopes);
    assert Placed(body, release) && Direct(release, builtins) && Releases(release);
  }

  // ----------------------------------------------------------------- a late import

  /** `cq.exporters` */
  function Exporters(): Node {
    Attribute(Name("cq", false, 3), "exporters", 3)
  }

  /** `cq.exporters.export` */
  function ExportChain(): Node {
    Attribute(Exporters(), "export", 3)
  }

  /** The entry point keeps the exporter under the name f and calls it; the import that binds cq comes afterwards. */
  function LateStatements(f: string): seq<Node> {
    [Bind(f, ExportChain()), ReturnCall(f)]
  }

  lemma HarmlessAttribute(base: Node, attr: string, line: int, t: Tables, functions: set<string>)
    requires !Private(attr) && Harmless(base, t, functions)
    requires ModuleOf(ChainRoot(base), t).None? && ChainRoot(Attribute(base, attr, line)) == ChainRoot(base)
    ensures Harmless(Attribute(base, attr, line), t, functions)
  {
    hide Harmless;
    var n := Attribute(base, attr, line);
    assert Children(n) == [base];
    assert AttributeCodes(n, t) == [];
    HarmlessNode(n, t, functions);
  }

  lemma ExportChainHarmless(functions: set<string>)
    ensures Harmless(ExportChain(), START.tables, functions)
  {
    hide Harmless;
    PublicNames();
    HarmlessName("cq", false, 3, START.tables, functions);
    HarmlessAttribute(Name("cq", false, 3), "exporters", 3, START.tables, functions);
    HarmlessAttribute(Exporters(), "export", 3, START.tables, functions);
  }

  lemma LateStatementsBind(f: string)
    requires f != "cq"
    ensures AllBoundNowhere(LateStatements(f), "cq")
  {
    hide BoundNowhere;
    NowhereName("cq", false, 3, "cq");
    assert Children(Exporters()) == [Name("cq", false, 3)] && Children(ExportChain()) == [Exporters()];
    NowherePlain(Exporters(), "cq");
    NowherePlain(ExportChain(), "cq");
    NowhereName(f, true, 3, "cq");
    assert Children(Bind(f, ExportChain())) == [Name(f, true, 3), ExportChain()];
    NowherePlain(Bind(f, ExportChain()), "cq");
    ReturnCallBinds(f, "cq");
  }

  lemma LateImportAccepted(f: string)
    requires BuiltinCall(f) && !ForbiddenCall(f) && !Private(f)
    ensures ViolationFree(Program([], LateStatements(f), [CqImport()]))
  {
    hide BuiltinCall, ForbiddenCall, Harmless, CleanRun, FinalTables, ViolationFree, Private, AnyReturns, CqImport;
    hide ExportChain;
    var body, t := Program([], LateStatements(f), [CqImport()]), START.tables;
    ExportChainHarmless(FunctionNames(body));
    BindHarmless(f, ExportChain(), t, FunctionNames(body));
    ReturnCallHarmless(f, t, FunctionNames(body));
    EmptyRun(t, FunctionNames(body));
    CqImportRun(FunctionNames(body));
    ReturnsLast(LateStatements(f));
    ProgramAccepted([], LateStatements(f), [CqImport()], t);
  }

  lemma LateAccess(f: string, builtins: string -> bool)
    requires f != "cq"
    ensures var body := Program([], LateStatements(f), [CqImport()]);
            DirectAccess(body, Event(Exporters(), Name("cq", false, 3), Inside(body, LateStatements(f))), builtins)
  {
    hide Occurs, MayBeCadQuery, AllBoundNowhere;
    var body := Program([], LateStatements(f), [CqImport()]);
    var scopes := Inside(body, LateStatements(f));
    LateStatementsBind(f);
    assert CqImport() in body;
    CqIsTheModule(body, LateStatements(f), builtins);
    StatementOccurs([], LateStatements(f), [CqImport()], 0);
    assert Children(LateStatements(f)[0])[1] == ExportChain();
    OccursBelow(body, LateStatements(f)[0], scopes, ExportChain(), scopes);
    OccursBelow(body, ExportChain(), scopes, Exporters(), scopes);
    assert Part(Exporters(), scopes, Name("cq", false, 3), scopes);
    assert Placed(body, Event(Exporters(), Name("cq", false, 3), scopes));
  }

  /** The policy accepts a program that reaches the exporters, because the import is visited after the chain. */
  lemma LateImportReaches(f: string, builtins: string -> bool, exposing: Exposing)
    requires BuiltinCall(f) && !ForbiddenCall(f) && !Private(f) && f != "cq"
    ensures var body := Program([], LateStatements(f), [CqImport()]);
            ViolationFree(body) && Reachable(body, builtins, exposing)
  {
    hide BuiltinCall, ForbiddenCall, ViolationFree, Reachable, Private, DirectAccess;
    var body := Program([], LateStatements(f), [CqImport()]);
    LateImportAccepted(f);
    LateAccess(f, builtins);
    DirectReaches(body, Event(Exporters(), Name("cq", false, 3), Inside(body, LateStatements(f))), builtins, exposing);
  }

  // ------------------------------------------------------------------ a stored module

  function W(line: int): Node {
    Name("w", false, line)
  }

  /** `w.foo` */
  function Slot(line: int): Node {
    Attribute(W(line), "foo", line)
  }

  /** `cq.Workplane("XY")` */
  function Workplane(): Node {
    Call(Attribute(Name("cq", false, 3), "Workplane", 3), [Constant(true, 3)], 3)
  }

  /** `w.foo = cq` */
  function Store(): Node {
    Assign([Slot(4)], Name("cq", false, 4), 4)
  }

  /** `w.foo.exporters` */
  function StoredExporters(): Node {
    Attribute(Slot(5), "exporters", 5)
  }

  function Fetch(f: string): Node {
    Assign([Name(f, true, 5)], Attribute(StoredExporters(), "export", 5), 5)
  }

  function CallW(f: string): Node {
    Return([Call(Name(f, false, 6), [W(6)], 6)], 6)
  }

  /** Put the module into an attribute of a workplane, and take it out again. */
  function StoringStatements(f: string): seq<Node> {
    [Assign([Name("w", true, 3)], Workplane(), 3), Store(), Fetch(f), CallW(f)]
  }

  lemma StoringNames()
    ensures "w" !in CQ_TABLES.aliases && "cq" in CQ_TABLES.aliases
  {
    assert "w"[0] != "cq"[0];
  }

  lemma SlotHarmless(line: int, functions: set<string>)
    ensures Harmless(Slot(line), CQ_TABLES, functions)
  {
    hide Harmless;
    StoringNames();
    PublicNames();
    HarmlessName("w", false, line, CQ_TABLES, functions);
    HarmlessAttribute(W(line), "foo", line, CQ_TABLES, functions);
  }

  lemma WorkplaneHarmless(functions: set<string>)
    ensures Harmless(Workplane(), CQ_TABLES, functions)
  {
    hide Harmless;
    PublicNames();
    var cq := Name("cq", false, 3);
    var access, text := Attribute(cq, "Workplane", 3), Constant(true, 3);
    HarmlessName("cq", false, 3, CQ_TABLES, functions);
    assert ChainAttributes(access) == ["Workplane"] && ChainRoot(access) == Some("cq");
    assert Children(access) == [cq];
    HarmlessNode(access, CQ_TABLES, functions);
    HarmlessNode(text, CQ_TABLES, functions);
    assert Children(Workplane()) == [access, text];
    HarmlessNode(Workplane(), CQ_TABLES, functions);
  }

  lemma FetchHarmless(f: string, functions: set<string>)
    requires !Private(f)
    ensures Harmless(Fetch(f), CQ_TABLES, functions)
  {
    hide Harmless;
    StoringNames();
    PublicNames();
    SlotHarmless(5, functions);
    assert ChainRoot(Slot(5)) == Some("w") && ChainRoot(StoredExporters()) == Some("w");
    HarmlessAttribute(Slot(5), "exporters", 5, CQ_TABLES, functions);
    HarmlessAttribute(StoredExporters(), "export", 5, CQ_TABLES, functions);
    HarmlessName(f, true, 5, CQ_TABLES, functions);
    HarmlessNode(Fetch(f), CQ_TABLES, functions);
  }

  lemma StoringHarmless(f: string, functions: set<string>)
    requires BuiltinCall(f) && !ForbiddenCall(f) && !Private(f)
    ensures AllHarmless(StoringStatements(f), CQ_TABLES, functions)
  {
    hide Harmless, BuiltinCall, ForbiddenCall, Workplane, Slot, Fetch, Private;
    PublicNames();
    WorkplaneHarmless(functions);
    SlotHarmless(4, functions);
    FetchHarmless(f, functions);
    HarmlessName("w", true, 3, CQ_TABLES, functions);
    HarmlessName("w", false, 6, CQ_TABLES, functions);
    HarmlessName("cq", false, 4, CQ_TABLES, functions);
    HarmlessName(f, false, 6, CQ_TABLES, functions);
    HarmlessNode(StoringStatements(f)[0], CQ_TABLES, functions);
    HarmlessNode(Store(), CQ_TABLES, functions);
    HarmlessNode(CallW(f).result[0], CQ_TABLES, functions);
    HarmlessNode(CallW(f), CQ_TABLES, functions);
  }

  lemma SlotBindsNowhere(line: int)
    ensures BoundNowhere(Slot(line), "cq")
  {
    hide BoundNowhere;
    NowhereName("w", false, line, "cq");
    assert Children(Slot(line)) == [W(line)];
    NowherePlain(Slot(line), "cq");
  }

  lemma WorkplaneBindsNowhere()
    ensures BoundNowhere(Workplane(), "cq")
  {
    hide BoundNowhere;
    var cq, text := Name("cq", false, 3), Constant(true, 3);
    NowhereName("cq", false, 3, "cq");
    assert Children(Workplane().func) == [cq] && Children(text) == [];
    NowherePlain(Workplane().func, "cq");
    NowherePlain(text, "cq");
    assert Children(Workplane()) == [Workplane().func, text];
    NowherePlain(Workplane(), "cq");
  }

  lemma FetchBindsNowhere(f: string)
    requires f != "cq"
    ensures BoundNowhere(Fetch(f), "cq")
  {
    hide BoundNowhere;
    var chain := Attribute(StoredExporters(), "export", 5);
    SlotBindsNowhere(5);
    assert Children(StoredExporters()) == [Slot(5)] && Children(chain) == [StoredExporters()];
    NowherePlain(StoredExporters(), "cq");
    NowherePlain(chain, "cq");
    NowhereName(f, true, 5, "cq");
    assert Children(Fetch(f)) == [Name(f, true, 5), chain];
    NowherePlain(Fetch(f), "cq");
  }

  lemma StoringBindsNowhere(f: string)
    requires f != "cq"
    ensures AllBoundNowhere(StoringStatements(f), "cq")
  {
    hide BoundNowhere, Slot, Workplane, Fetch;
    assert "w"[0] != "cq"[0];
    SlotBindsNowhere(4);
    WorkplaneBindsNowhere();
    FetchBindsNowhere(f);
    NowhereName("w", true, 3, "cq");
    NowhereName("w", false, 6, "cq");
    NowhereName("cq", false, 4, "cq");
    NowhereName(f, false, 6, "cq");
    NowherePlain(StoringStatements(f)[0], "cq");
    NowherePlain(Store(), "cq");
    NowherePlain(CallW(f).result[0], "cq");
    NowherePlain(CallW(f), "cq");
  }

  lemma StoredAccess(f: string, builtins: string -> bool)
    ensures var body := Program([CqImport()], StoringStatements(f), []);
            exists e :: Placed(body, e) && Untracked(e, builtins) && Accesses(e)
  {
    hide Occurs;
    var statements := StoringStatements(f);
    var body := Program([CqImport()], statements, []);
    var scopes := Inside(body, statements);
    StatementOccurs([CqImport()], statements, [], 2);
    assert Children(Fetch(f))[1] == Attribute(StoredExporters(), "export", 5);
    OccursBelow(body, Fetch(f), scopes, Attribute(StoredExporters(), "export", 5), scopes);
    OccursBelow(body, Attribute(StoredExporters(), "export", 5), scopes, StoredExporters(), scopes);
    var e := Event(StoredExporters(), Slot(5), scopes);
    assert Part(StoredExporters(), scopes, Slot(5), scopes);
    assert Placed(body, e) && Untracked(e, builtins) && Accesses(e);
  }

  /** A module stored in an attribute is not tracked: the program is accepted and reaches the exporters through it. */
  lemma StoredModuleReaches(f: string, builtins: string -> bool, exposing: Exposing)
    requires BuiltinCall(f) && !ForbiddenCall(f) && !Private(f) && f != "cq"
    ensures var body := Program([CqImport()], StoringStatements(f), []);
            ViolationFree(body) && Reachable(body, builtins, exposing)
  {
    hide BuiltinCall, ForbiddenCall, ViolationFree, Private, Reachable, AllHarmless, AnyReturns, AllBoundNowhere;
    hide CleanRun, FinalTables, FunctionNames;
    var statements := StoringStatements(f);
    var body := Program([CqImport()], statements, []);
    StoringHarmless(f, FunctionNames(body));
    CqImportRun(FunctionNames(body));
    EmptyRun(CQ_TABLES, FunctionNames(body));
    ReturnsLast(statements);
    ProgramAccepted([CqImport()], statements, [], CQ_TABLES);
    StoringBindsNowhere(f);
    assert Children(Store())[1] == Name("cq", false, 4) && body[0] == CqImport();
    ReadingCqReleases([CqImport()], statements, [], 1, Name("cq", false, 4), builtins);
    StoredAccess(f, builtins);
    hide Placed, Untracked, Accesses, Loose, Exposed;
    ReachableExactly(body, builtins, exposing);
  }

  // ---------------------------------------------------------------- attributes of class patterns

  function Matching(x: string, a: string): Node {
    Match(Name(x, false, 3), Name("object", false, 3), [a], [Capture("found", [], 3)], 3)
  }

  /** Match the attribute a of what x stands for, then call f. */
  function MatchingStatements(x: string, a: string, f: string): seq<Node> {
    [Matching(x, a), ReturnCall(f)]
  }

  lemma NoChildren(n: Node, t: Tables, functions: set<string>)
    requires n.Capture? && n.patterns == []
    ensures Harmless(n, t, functions)
  {
    hide Harmless;
    assert Children(n) == [];
    HarmlessNode(n, t, functions);
  }

  lemma MatchingHarmless(x: string, a: string, t: Tables, functions: set<string>)
    requires !Private(x)
    ensures Harmless(Matching(x, a), t, functions)
  {
    hide Harmless, Private;
    PublicNames();
    HarmlessName(x, false, 3, t, functions);
    HarmlessName("object", false, 3, t, functions);
    NoChildren(Capture("found", [], 3), t, functions);
    OneHarmless(Capture("found", [], 3), t, functions);
    MatchHarmless(Name(x, false, 3), Name("object", false, 3), [a], [Capture("found", [], 3)], 3, t, functions);
  }

  lemma MatchingAccepted(x: string, a: string, f: string)
    requires !Private(x) && BuiltinCall(f) && !ForbiddenCall(f) && !Private(f)
    ensures ViolationFree(Program([CqImport()], MatchingStatements(x, a, f), []))
  {
    hide Harmless, BuiltinCall, ForbiddenCall, ViolationFree, Private, AnyReturns, Matching, CleanRun, FinalTables;
    hide FunctionNames;
    var statements := MatchingStatements(x, a, f);
    var functions := FunctionNames(Program([CqImport()], statements, []));
    MatchingHarmless(x, a, CQ_TABLES, functions);
    ReturnCallHarmless(f, CQ_TABLES, functions);
    TwoHarmless(Matching(x, a), ReturnCall(f), CQ_TABLES, functions);
    CqImportRun(functions);
    EmptyRun(CQ_TABLES, functions);
    ReturnsLast(statements);
    ProgramAccepted([CqImport()], statements, [], CQ_TABLES);
  }

  /** The class pattern lies in the program. */
  lemma MatchingPattern(x: string, a: string, f: string) returns (pattern: Node)
    ensures pattern == ClassPattern(Name("object", false, 3), [a], [Capture("found", [], 3)], 3)
    ensures Within(pattern, Module(Program([CqImport()], MatchingStatements(x, a, f), [])))
  {
    var statements := MatchingStatements(x, a, f);
    var body, whole := Program([CqImport()], statements, []), Matching(x, a);
    pattern := whole.children[1].children[0];
    hide Within;
    WithinItself(pattern);
    assert Children(whole.children[1])[0] == pattern && Children(whole)[1] == whole.children[1];
    WithinParent(pattern, pattern, whole.children[1]);
    WithinParent(pattern, whole.children[1], whole);
    assert Children(Entry(statements))[0] == whole && Children(Module(body))[1] == Entry(statements);
    WithinParent(pattern, whole, Entry(statements));
    WithinParent(pattern, Entry(statements), Module(body));
  }

  lemma MatchingBindsNowhere(x: string, a: string, f: string, name: string)
    requires name != "found"
    ensures AllBoundNowhere(MatchingStatements(x, a, f), name)
  {
    hide BoundNowhere;
    var whole := Matching(x, a);
    var inner := whole.children[1];
    var pattern, pass := inner.children[0], inner.children[1];
    CaptureBindsFound(name);
    NowhereName("object", false, 3, name);
    NowhereName(x, false, 3, name);
    assert Children(pattern) == [Name("object", false, 3), Capture("found", [], 3)] && Children(pass) == [];
    NowherePlain(pattern, name);
    NowherePlain(pass, name);
    assert Children(inner) == [pattern, pass];
    NowherePlain(inner, name);
    assert Children(whole) == [Name(x, false, 3), inner];
    NowherePlain(whole, name);
    ReturnCallBinds(f, name);
  }

  lemma CaptureBindsFound(name: string)
    requires name != "found"
    ensures BoundNowhere(Capture("found", [], 3), name)
  {
  }

  /** A class pattern on the module is accepted, and reaches the refused submodule it names. */
  lemma MatchedModuleReaches(a: string, f: string, builtins: string -> bool, exposing: Exposing)
    requires BuiltinCall(f) && !ForbiddenCall(f) && !Private(f) && ForbiddenModule(a)
    ensures var body := Program([CqImport()], MatchingStatements("cq", a, f), []);
            ViolationFree(body) && Reachable(body, builtins, exposing)
  {
    hide BuiltinCall, ForbiddenCall, ViolationFree, Private, Reachable, Within, ForbiddenModule, AllBoundNowhere;
    var statements := MatchingStatements("cq", a, f);
    var body := Program([CqImport()], statements, []);
    PublicNames();
    MatchingAccepted("cq", a, f);
    assert "found"[0] != "cq"[0];
    MatchingBindsNowhere("cq", a, f, "cq");
    assert Children(Matching("cq", a))[0] == Name("cq", false, 3) && body[0] == CqImport();
    ReadingCqReleases([CqImport()], statements, [], 0, Name("cq", false, 3), builtins);
    var pattern := MatchingPattern("cq", a, f);
    assert ForbiddenModule(pattern.attrs[0]);
    hide Loose, Exposed;
    assert BlindAccess(body, builtins);
    hide BlindAccess;
    ReachableExactly(body, builtins, exposing);
  }

  lemma ProgramBindsNowhere(x: string, a: string, f: string)
    requires f != "found" && f != "cq" && f != "parameters" && f != ENTRYPOINT
    ensures BoundNowhere(Module(Program([CqImport()], MatchingStatements(x, a, f), [])), f)
  {
    hide BoundNowhere, MatchingStatements, AllParameters;
    var statements := MatchingStatements(x, a, f);
    var body, entry := Program([CqImport()], statements, []), Entry(statements);
    MatchingBindsNowhere(x, a, f, f);
    EntryParameters();
    assert Children(entry) == statements;
    NowhereNode(entry, f);
    assert Bound(CqImport().names[0]) == "cq" && Children(CqImport()) == [];
    NowhereNode(CqImport(), f);
    assert Children(Module(body)) == [CqImport(), entry];
    NowherePlain(Module(body), f);
  }

  /**
   * An accepted program may name any attribute in a class pattern. If the attribute hands out a namespace, a name that
   * no node binds can stand for something else than the builtin.
   */
  lemma PatternHandsOutNamespace(x: string, a: string, f: string, builtins: string -> bool, exposing: Exposing)
    requires !Private(x) && BuiltinCall(f) && !ForbiddenCall(f) && !Private(f) && exposing.attribute(a)
    requires f != "found" && f != "cq" && f != "parameters" && f != ENTRYPOINT
    ensures var body := Program([CqImport()], MatchingStatements(x, a, f), []);
            && ViolationFree(body) && (forall n, o | Within(n, Module(body)) :: !NodeBinds(n, f, o))
            && Occurs(body, CallOf(f), Inside(body, MatchingStatements(x, a, f)))
            && MayStandFor(body, Inside(body, MatchingStatements(x, a, f)), f, builtins, exposing, Found(true, Written))
  {
    hide BuiltinCall, ForbiddenCall, ViolationFree, Private, Within, NodeBinds, MayBe, BoundNowhere, Occurs;
    var body := Program([CqImport()], MatchingStatements(x, a, f), []);
    MatchingAccepted(x, a, f);
    ReturnedCallOccurs([CqImport()], MatchingStatements(x, a, f), [], f);
    ProgramBindsNowhere(x, a, f);
    forall n, o | Within(n, Module(body)) ensures !NodeBinds(n, f, o) { BoundNowhereWithin(n, Module(body), f); }
    var pattern := MatchingPattern(x, a, f);
    assert ReadsAttribute(pattern, a);
  }

  // ------------------------------------------------------------- attributes of a generator

  /** `(p for p in parameters)` */
  function Drain(): Node {
    Comprehension([Name("p", false, 3)], [Generator(Name("p", true, 3), Parameters(), [], 3)], 3)
  }

  /** `(p for p in parameters).a.b` */
  function DrainChain(a: string, b: string): Node {
    Attribute(Attribute(Drain(), a, 3), b, 3)
  }

  /** Take two attributes off a generator, then call f. */
  function DrainStatements(a: string, b: string, f: string): seq<Node> {
    [Bind("w", DrainChain(a, b)), ReturnCall(f)]
  }

  lemma DrainHarmless(t: Tables, functions: set<string>)
    ensures Harmless(Drain(), t, functions)
  {
    hide Harmless;
    var item, part := Name("p", true, 3), Drain().generators[0];
    assert !Private("p");
    PublicNames();
    HarmlessName("p", false, 3, t, functions);
    HarmlessName("p", true, 3, t, functions);
    HarmlessName("parameters", false, 3, t, functions);
    assert Children(part) == [item, Parameters()];
    TwoHarmless(item, Parameters(), t, functions);
    HarmlessNode(part, t, functions);
    assert Children(Drain()) == [Name("p", false, 3), part];
    TwoHarmless(Name("p", false, 3), part, t, functions);
    HarmlessNode(Drain(), t, functions);
  }

  lemma DrainAccepted(a: string, b: string, f: string)
    requires !Private(a) && !Private(b) && BuiltinCall(f) && !ForbiddenCall(f) && !Private(f)
    ensures ViolationFree(Program([], DrainStatements(a, b, f), []))
  {
    hide Harmless, BuiltinCall, ForbiddenCall, ViolationFree, Private, AnyReturns, CleanRun, FinalTables, Drain;
    hide FunctionNames;
    var statements, t := DrainStatements(a, b, f), START.tables;
    var functions := FunctionNames(Program([], statements, []));
    DrainHarmless(t, functions);
    assert ChainRoot(Drain()).None? by { DrainHasNoRoot(); }
    HarmlessAttribute(Drain(), a, 3, t, functions);
    HarmlessAttribute(Attribute(Drain(), a, 3), b, 3, t, functions);
    PublicNames();
    BindHarmless("w", DrainChain(a, b), t, functions);
    ReturnCallHarmless(f, t, functions);
    TwoHarmless(Bind("w", DrainChain(a, b)), ReturnCall(f), t, functions);
    EmptyRun(t, functions);
    ReturnsLast(statements);
    ProgramAccepted([], statements, [], t);
  }

  lemma DrainHasNoRoot()
    ensures ChainRoot(Drain()).None?
  {
  }

  lemma DrainBindsNowhere(a: string, b: string, f: string, name: string)
    requires name != "p" && name != "w"
    ensures AllBoundNowhere(DrainStatements(a, b, f), name)
  {
    hide BoundNowhere;
    var part, inner, chain := Drain().generators[0], Attribute(Drain(), a, 3), DrainChain(a, b);
    NowhereName("p", false, 3, name);
    NowhereName("p", true, 3, name);
    NowhereName("parameters", false, 3, name);
    NowhereName("w", true, 3, name);
    assert Children(part) == [Name("p", true, 3), Parameters()];
    NowherePlain(part, name);
    assert Children(Drain()) == [Name("p", false, 3), part];
    NowherePlain(Drain(), name);
    assert Children(inner) == [Drain()] && Children(chain) == [inner];
    NowherePlain(inner, name);
    NowherePlain(chain, name);
    assert Children(Bind("w", chain)) == [Name("w", true, 3), chain];
    NowherePlain(Bind("w", chain), name);
    ReturnCallBinds(f, name);
  }

  lemma EntryBindsNowhere(statements: seq<Node>, name: string)
    requires AllBoundNowhere(statements, name) && name != "parameters" && name != ENTRYPOINT
    ensures BoundNowhere(Module(Program([], statements, [])), name)
  {
    hide BoundNowhere, AllParameters;
    var body, entry := Program([], statements, []), Entry(statements);
    EntryParameters();
    assert Children(entry) == statements;
    NowhereNode(entry, name);
    assert Children(Module(body)) == [entry];
    NowherePlain(Module(body), name);
  }

  /** No class pattern occurs in the tree. */
  ghost predicate Patternless(n: Node) {
    forall m | Within(m, n) :: !m.ClassPattern?
  }

  lemma PatternlessNode(n: Node)
    requires !n.ClassPattern? && forall c | c in Children(n) :: Patternless(c)
    ensures Patternless(n)
  {
    hide Children;
    forall m | Within(m, n) ensures !m.ClassPattern? {
      if m != n {
        var i :| 0 <= i < |Children(n)| && Within(m, Children(n)[i]);
        assert Patternless(Children(n)[i]);
      }
    }
  }

  lemma DrainPatternless(a: string, b: string, f: string)
    ensures Patternless(Module(Program([], DrainStatements(a, b, f), [])))
  {
    hide Patternless;
    var part, inner, chain := Drain().generators[0], Attribute(Drain(), a, 3), DrainChain(a, b);
    PatternlessNode(Name("p", false, 3));
    PatternlessNode(Name("p", true, 3));
    PatternlessNode(Parameters());
    PatternlessNode(Name("w", true, 3));
    PatternlessNode(Name(f, false, 3));
    assert Children(part) == [Name("p", true, 3), Parameters()];
    PatternlessNode(part);
    assert Children(Drain()) == [Name("p", false, 3), part];
    PatternlessNode(Drain());
    PatternlessNode(inner);
    PatternlessNode(chain);
    PatternlessNode(Bind("w", chain));
    PatternlessNode(CallOf(f));
    PatternlessNode(ReturnCall(f));
    var entry := Entry(DrainStatements(a, b, f));
    assert Children(entry) == DrainStatements(a, b, f);
    PatternlessNode(entry);
    assert Children(Module(Program([], DrainStatements(a, b, f), []))) == [entry];
    PatternlessNode(Module(Program([], DrainStatements(a, b, f), [])));
  }

  lemma DrainChainWithin(a: string, b: string, f: string)
    ensures Within(DrainChain(a, b), Module(Program([], DrainStatements(a, b, f), [])))
  {
    hide Within;
    var chain, statements := DrainChain(a, b), DrainStatements(a, b, f);
    var entry := Entry(statements);
    WithinItself(chain);
    assert Children(statements[0])[1] == chain && Children(entry)[0] == statements[0];
    assert Children(Module(Program([], statements, []))) == [entry];
    WithinParent(chain, chain, statements[0]);
    WithinParent(chain, statements[0], entry);
    WithinParent(chain, entry, Module(Program([], statements, [])));
  }

  /**
   * An accepted program may take any public attributes off a generator, whose frame is public in CPython (`gi_frame`,
   * `f_globals`). If the last hands out a namespace, a name that no node binds can stand for something else than the
   * builtin, and neither a class pattern nor an exposing builtin is needed for it.
   */
  lemma GeneratorHandsOutNamespace(
      a: string, b: string, f: string, builtins: string -> bool, exposing: Exposing)
    requires !Private(a) && !Private(b) && BuiltinCall(f) && !ForbiddenCall(f) && !Private(f) && exposing.attribute(b)
    requires f != "p" && f != "w" && f != "parameters" && f != ENTRYPOINT
    ensures var statements := DrainStatements(a, b, f);
            var body := Program([], statements, []);
            && ViolationFree(body) && (forall n, o | Within(n, Module(body)) :: !NodeBinds(n, f, o))
            && !MatchesExposing(body, exposing) && TakesExposing(body, exposing)
            && Occurs(body, CallOf(f), Inside(body, statements))
            && MayStandFor(body, Inside(body, statements), f, builtins, exposing, Found(true, Written))
  {
    hide BuiltinCall, ForbiddenCall, ViolationFree, Private, Within, NodeBinds, MayBe, BoundNowhere, Occurs;
    var body := Program([], DrainStatements(a, b, f), []);
    DrainAccepted(a, b, f);
    ReturnedCallOccurs([], DrainStatements(a, b, f), [], f);
    DrainBindsNowhere(a, b, f, f);
    EntryBindsNowhere(DrainStatements(a, b, f), f);
    forall n, o | Within(n, Module(body)) ensures !NodeBinds(n, f, o) { BoundNowhereWithin(n, Module(body), f); }
    DrainPatternless(a, b, f);
    DrainChainWithin(a, b, f);
    assert ReadsAttribute(DrainChain(a, b), b);
  }
}
