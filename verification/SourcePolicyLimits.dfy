/** What the verdict of the source policy does not depend on: bindings, pattern attributes, and public attributes. */
module SourcePolicyLimits {
  import opened Json
  import opened SourcePolicy
  import opened SourcePolicyProperties

  // ------------------------------------------------------------- a clean verdict, piece by piece

  lemma {:induction false} CleanRunConcat(x: seq<Node>, y: seq<Node>, t: Tables, functions: set<string>)
    ensures CleanRun(x + y, t, functions) <==> CleanRun(x, t, functions) && CleanRun(y, FinalTables(x, t), functions)
    ensures FinalTables(x + y, t) == FinalTables(y, FinalTables(x, t))
    decreases |x|
  {
    hide NodeClean, TablesAfter;
    if x == [] {
      assert x + y == y;
    } else {
      assert (x + y)[0] == x[0] && (x + y)[1..] == x[1..] + y;
      CleanRunConcat(x[1..], y, TablesAfter(x[0], t), functions);
    }
  }

  /** Visited with these tables, the tree raises nothing and leaves the tables alone. */
  ghost predicate Harmless(n: Node, t: Tables, functions: set<string>) {
    CleanRun(Preorder(n), t, functions) && FinalTables(Preorder(n), t) == t
  }

  ghost predicate AllHarmless(nodes: seq<Node>, t: Tables, functions: set<string>) {
    forall i | 0 <= i < |nodes| :: Harmless(nodes[i], t, functions)
  }

  lemma {:induction false} FlatHarmless(nodes: seq<Node>, t: Tables, functions: set<string>)
    requires AllHarmless(nodes, t, functions)
    ensures CleanRun(Flat(nodes), t, functions) && FinalTables(Flat(nodes), t) == t
    decreases |nodes|
  {
    hide Preorder, NodeClean, TablesAfter, CleanRun, FinalTables;
    if nodes == [] {
      EmptyRun(t, functions);
    } else {
      assert Harmless(nodes[0], t, functions);
      assert forall i | 0 <= i < |nodes[1..]| :: nodes[1..][i] == nodes[i + 1];
      FlatHarmless(nodes[1..], t, functions);
      CleanRunConcat(Preorder(nodes[0]), Flat(nodes[1..]), t, functions);
    }
  }

  lemma EmptyRun(t: Tables, functions: set<string>)
    ensures CleanRun([], t, functions) && FinalTables([], t) == t
  {
  }

  /** A clean node that is no import, over harmless children. */
  lemma HarmlessNode(n: Node, t: Tables, functions: set<string>)
    requires !n.Import? && !n.ImportFrom? && NodeClean(n, t, functions) && AllHarmless(Children(n), t, functions)
    ensures Harmless(n, t, functions)
  {
    hide NodeClean, TablesAfter, Harmless, Children;
    FlatHarmless(Children(n), t, functions);
    PreorderIs(n);
    NoTableChange(n, t);
    CleanRunConcat([n], Flat(Children(n)), t, functions);
    OneRun(n, t, functions);
    assert Harmless(n, t, functions) by { HarmlessIs(n, t, functions); }
  }

  lemma HarmlessIs(n: Node, t: Tables, functions: set<string>)
    ensures Harmless(n, t, functions) <==> CleanRun(Preorder(n), t, functions) && FinalTables(Preorder(n), t) == t
  {
  }

  lemma OneRun(n: Node, t: Tables, functions: set<string>)
    ensures CleanRun([n], t, functions) <==> NodeClean(n, t, functions)
    ensures FinalTables([n], t) == TablesAfter(n, t)
  {
    hide NodeClean, TablesAfter;
    assert [n][1..] == [];
    EmptyRun(TablesAfter(n, t), functions);
  }

  // -------------------------------------- acceptance does not depend on what names are bound to

  /** y is x with the statement inserted somewhere. */
  ghost predicate InsertedInto(x: seq<Node>, y: seq<Node>, statement: Node) {
    exists k | 0 <= k <= |x| :: y == x[..k] + [statement] + x[k..]
  }

  /** m' is m with the statement inserted once, into the body of a function at any depth of nested statements. */
  ghost predicate Grown(m: Node, m': Node, statement: Node)
    decreases m
  {
    match m
    case FunctionDef(_, _, body, _, _, _) =>
      && m'.FunctionDef? && m' == m.(body := m'.body)
      && (InsertedInto(body, m'.body, statement) || OneGrown(body, m'.body, statement))
    case Other(_, children, _) =>
      m'.Other? && m' == m.(children := m'.children) && OneGrown(children, m'.children, statement)
    case _ => false
  }

  /** One of the nodes has grown, the others are the same. */
  ghost predicate OneGrown(x: seq<Node>, y: seq<Node>, statement: Node)
    decreases x
  {
    |x| == |y| && exists k | 0 <= k < |x| :: y == x[k := y[k]] && Grown(x[k], y[k], statement)
  }

  /** Some import among the nodes binds the name to a module. */
  ghost predicate Aliased(nodes: seq<Node>, name: string) {
    exists n | n in nodes :: n.Import? && LastAlias(n.names, name).Some?
  }

  /** The tables track no name but those the nodes import. */
  ghost predicate TracksOnly(t: Tables, all: seq<Node>) {
    forall name | name in t.aliases :: Aliased(all, name)
  }

  ghost predicate Among(nodes: seq<Node>, all: seq<Node>) {
    forall n | n in nodes :: n in all
  }

  /** The statement is accepted wherever it stands, in a program with these imports. */
  ghost predicate AlwaysHarmless(statement: Node, all: seq<Node>, functions: set<string>) {
    forall t | TracksOnly(t, all) :: Harmless(statement, t, functions)
  }

  lemma {:induction false} StillTracks(nodes: seq<Node>, t: Tables, all: seq<Node>)
    requires TracksOnly(t, all) && Among(nodes, all)
    ensures TracksOnly(FinalTables(nodes, t), all)
    decreases |nodes|
  {
    hide TablesAfter, LastAlias;
    if nodes != [] {
      var next := TablesAfter(nodes[0], t);
      forall name | name in next.aliases ensures Aliased(all, name) {
        EntryAfter(nodes[0], t, name);
        assert name !in t.aliases ==> nodes[0] in all && LastAlias(nodes[0].names, name).Some?;
      }
      StillTracks(nodes[1..], next, all);
    }
  }

  /** The two visits have the same effect on the tables, and the second is clean if the first is. */
  ghost predicate NoWorse(x: seq<Node>, y: seq<Node>, t: Tables, functions: set<string>) {
    && (CleanRun(x, t, functions) ==> CleanRun(y, t, functions))
    && FinalTables(x, t) == FinalTables(y, t)
  }

  lemma InsertionNoWorse(
      x: seq<Node>, y: seq<Node>, statement: Node, t: Tables, all: seq<Node>, functions: set<string>)
    requires InsertedInto(x, y, statement) && AlwaysHarmless(statement, all, functions)
    requires TracksOnly(t, all) && Among(Flat(x), all)
    ensures NoWorse(Flat(x), Flat(y), t, functions)
  {
    hide Flat, CleanRun, FinalTables, Preorder, TracksOnly;
    var k :| 0 <= k <= |x| && y == x[..k] + [statement] + x[k..];
    assert x == x[..k] + x[k..];
    FlatConcat(x[..k], x[k..]);
    FlatConcat(x[..k] + [statement], x[k..]);
    FlatConcat(x[..k], [statement]);
    FlatOne(statement);
    var before := FinalTables(Flat(x[..k]), t);
    StillTracks(Flat(x[..k]), t, all);
    assert Harmless(statement, before, functions);
    CleanRunConcat(Flat(x[..k]), Flat(x[k..]), t, functions);
    CleanRunConcat(Flat(x[..k]) + Preorder(statement), Flat(x[k..]), t, functions);
    CleanRunConcat(Flat(x[..k]), Preorder(statement), t, functions);
  }

  lemma {:induction false} OneGrownNoWorse(
      x: seq<Node>, y: seq<Node>, statement: Node, t: Tables, all: seq<Node>, functions: set<string>)
    requires OneGrown(x, y, statement) && AlwaysHarmless(statement, all, functions)
    requires TracksOnly(t, all) && Among(Flat(x), all)
    ensures NoWorse(Flat(x), Flat(y), t, functions)
    decreases x, 1
  {
    hide Flat, CleanRun, FinalTables, Preorder, AlwaysHarmless, TracksOnly;
    var k :| 0 <= k < |x| && y == x[k := y[k]] && Grown(x[k], y[k], statement);
    var front, back := x[..k], x[k + 1..];
    assert x == front + [x[k]] + back && y == front + [y[k]] + back;
    forall n ensures Flat(front + [n] + back) == Flat(front) + Preorder(n) + Flat(back) {
      FlatConcat(front + [n], back);
      FlatConcat(front, [n]);
      FlatOne(n);
    }
    var before := FinalTables(Flat(front), t);
    StillTracks(Flat(front), t, all);
    GrownNoWorse(x[k], y[k], statement, before, all, functions);
    AroundNoWorse(Flat(front), Preorder(x[k]), Preorder(y[k]), Flat(back), t, functions);
  }

  lemma AroundNoWorse(front: seq<Node>, x: seq<Node>, y: seq<Node>, back: seq<Node>, t: Tables, functions: set<string>)
    requires NoWorse(x, y, FinalTables(front, t), functions)
    ensures NoWorse(front + x + back, front + y + back, t, functions)
  {
    hide CleanRun, FinalTables;
    CleanRunConcat(front, x, t, functions);
    CleanRunConcat(front, y, t, functions);
    CleanRunConcat(front + x, back, t, functions);
    CleanRunConcat(front + y, back, t, functions);
  }

  lemma {:induction false} GrownNoWorse(
      m: Node, m': Node, statement: Node, t: Tables, all: seq<Node>, functions: set<string>)
    requires Grown(m, m', statement) && AlwaysHarmless(statement, all, functions)
    requires TracksOnly(t, all) && Among(Preorder(m), all)
    ensures NoWorse(Preorder(m), Preorder(m'), t, functions)
    decreases m, 0
  {
    hide CleanRun, FinalTables, Preorder, Flat, AlwaysHarmless, TracksOnly;
    PreorderIs(m);
    PreorderIs(m');
    SameHead(m, m', statement, t, functions);
    var inner := FinalTables([m], t);
    StillTracks([m], t, all);
    match m
    case FunctionDef(_, params, body, decorators, hint, _) =>
      FunctionParts(m);
      FunctionParts(m');
      StillTracks(Flat(params.nodes), inner, all);
      if InsertedInto(body, m'.body, statement) {
        InsertionNoWorse(body, m'.body, statement, FinalTables(Flat(params.nodes), inner), all, functions);
      } else {
        OneGrownNoWorse(body, m'.body, statement, FinalTables(Flat(params.nodes), inner), all, functions);
      }
      AroundNoWorse(Flat(params.nodes), Flat(body), Flat(m'.body), Flat(decorators + hint), inner, functions);
      HeadNoWorse(m, m', Flat(Children(m)), Flat(Children(m')), t, functions);
    case Other(_, children, _) =>
      OneGrownNoWorse(children, m'.children, statement, inner, all, functions);
      HeadNoWorse(m, m', Flat(children), Flat(m'.children), t, functions);
  }

  lemma FunctionParts(m: Node)
    requires m.FunctionDef?
    ensures Flat(Children(m)) == Flat(m.params.nodes) + Flat(m.body) + Flat(m.decorators + m.resultHint)
  {
    hide Flat;
    assert Children(m) == m.params.nodes + m.body + (m.decorators + m.resultHint);
    FlatConcat(m.params.nodes + m.body, m.decorators + m.resultHint);
    FlatConcat(m.params.nodes, m.body);
  }

  /** The rule of a node does not look into the statements it holds. */
  lemma SameHead(m: Node, m': Node, statement: Node, t: Tables, functions: set<string>)
    requires Grown(m, m', statement)
    ensures !m.Import? && !m.ImportFrom? && (NodeClean(m, t, functions) <==> NodeClean(m', t, functions))
    ensures FinalTables([m], t) == FinalTables([m'], t)
  {
    hide InsertedInto, OneGrown;
    NoTableChange(m, t);
    NoTableChange(m', t);
    OneRun(m, t, functions);
    OneRun(m', t, functions);
  }

  lemma HeadNoWorse(m: Node, m': Node, x: seq<Node>, y: seq<Node>, t: Tables, functions: set<string>)
    requires NodeClean(m, t, functions) <==> NodeClean(m', t, functions)
    requires FinalTables([m], t) == FinalTables([m'], t)
    requires NoWorse(x, y, FinalTables([m], t), functions)
    ensures NoWorse([m] + x, [m'] + y, t, functions)
  {
    hide CleanRun, FinalTables, NodeClean;
    OneRun(m, t, functions);
    OneRun(m', t, functions);
    CleanRunConcat([m], x, t, functions);
    CleanRunConcat([m'], y, t, functions);
  }

  lemma {:induction false} GrownReturns(m: Node, m': Node, statement: Node)
    requires Grown(m, m', statement) && ReturnsIn(m)
    ensures ReturnsIn(m')
    decreases m
  {
    ChildrenSmaller(m);
    ChildrenSmaller(m');
    if m.Other? && !OpensScope(m) {
      var i :| 0 <= i < |m.children| && ReturnsIn(m.children[i]);
      var k :| 0 <= k < |m.children| && m'.children == m.children[k := m'.children[k]]
            && Grown(m.children[k], m'.children[k], statement);
      if i == k { GrownReturns(m.children[k], m'.children[k], statement); }
      assert ReturnsIn(Children(m')[i]);
    }
  }

  lemma GrownFunctionReturns(f: Node, f': Node, statement: Node)
    requires f.FunctionDef? && Grown(f, f', statement) && AnyReturns(f.body)
    ensures AnyReturns(f'.body)
  {
    hide ReturnsIn;
    var i :| 0 <= i < |f.body| && ReturnsIn(f.body[i]);
    if k :| 0 <= k <= |f.body| && f'.body == f.body[..k] + [statement] + f.body[k..] {
      assert ReturnsIn(f'.body[if i < k then i else i + 1]);
    } else {
      var k :| 0 <= k < |f.body| && f'.body == f.body[k := f'.body[k]] && Grown(f.body[k], f'.body[k], statement);
      if i == k { GrownReturns(f.body[k], f'.body[k], statement); }
      assert ReturnsIn(f'.body[i]);
    }
  }

  /** Same entry points, or one of them grown. */
  lemma {:induction false} GrownEntrypoints(body: seq<Node>, body': seq<Node>, k: nat, statement: Node)
    requires k < |body| && |body'| == |body| && body' == body[k := body'[k]] && Grown(body[k], body'[k], statement)
    ensures var x, y := Entrypoints(body), Entrypoints(body');
            |x| == |y| && forall i | 0 <= i < |x| :: y[i] == x[i] || Grown(x[i], y[i], statement)
    decreases |body|
  {
    var last := |body| - 1;
    hide Grown;
    assert body[k].FunctionDef? <==> body'[k].FunctionDef? by { GrownName(body[k], body'[k], statement); }
    GrownName(body[k], body'[k], statement);
    if k == last {
      assert body'[..last] == body[..last];
    } else {
      assert body'[..last] == body[..last][k := body'[k]];
      GrownEntrypoints(body[..last], body'[..last], k, statement);
    }
  }

  lemma GrownName(m: Node, m': Node, statement: Node)
    requires Grown(m, m', statement)
    ensures m.FunctionDef? || m.Other?
    ensures m.FunctionDef? <==> m'.FunctionDef?
    ensures m.FunctionDef? ==> m'.name == m.name && m'.params == m.params && m'.decorators == m.decorators
  {
  }

  /** Inserting a harmless statement into any function of an accepted program leaves it accepted. */
  lemma InsertionKeepsVerdict(body: seq<Node>, body': seq<Node>, statement: Node)
    requires ViolationFree(body) && OneGrown(body, body', statement)
    requires AlwaysHarmless(statement, Preorder(Module(body)), FunctionNames(body))
    ensures ViolationFree(body')
  {
    hide ViolationFree, CleanRun, Preorder, AlwaysHarmless, TopLevelClean, EntrypointClean, FinalTables, Flat;
    ViolationFreeExactly(body);
    ViolationFreeExactly(body');
    var k :| 0 <= k < |body| && body' == body[k := body'[k]] && Grown(body[k], body'[k], statement);
    TopLevelKept(body, body', k, statement);
    EntrypointKept(body, body', k, statement);
    GrownNoWorse(Module(body), Module(body'), statement, START.tables, Preorder(Module(body)), FunctionNames(body));
  }

  lemma TopLevelKept(body: seq<Node>, body': seq<Node>, k: nat, statement: Node)
    requires k < |body| && |body'| == |body| && body' == body[k := body'[k]] && Grown(body[k], body'[k], statement)
    requires TopLevelClean(body)
    ensures TopLevelClean(body') && FunctionNames(body') == FunctionNames(body)
  {
    hide Grown, TopLevelCodes;
    GrownName(body[k], body'[k], statement);
    FunctionsAllowed(body[k], body'[k]);
    assert TopLevelCodes(body[k]) == [];
    assert forall i | 0 <= i < |body| :: i != k ==> body'[i] == body[i];
    SameNames(body, body');
  }

  lemma SameNames(body: seq<Node>, body': seq<Node>)
    requires |body| == |body'|
    requires forall i | 0 <= i < |body| :: body[i].FunctionDef? <==> body'[i].FunctionDef?
    requires forall i | 0 <= i < |body| && body[i].FunctionDef? :: body'[i].name == body[i].name
    ensures FunctionNames(body') == FunctionNames(body)
  {
    forall name ensures name in FunctionNames(body') <==> name in FunctionNames(body) {
      if i :| 0 <= i < |body| && body[i].FunctionDef? && body[i].name == name { assert body'[i].name == name; }
      if i :| 0 <= i < |body| && body'[i].FunctionDef? && body'[i].name == name { assert body[i].name == name; }
    }
  }

  /** At module level a function is allowed and a plain statement is not. */
  lemma FunctionsAllowed(m: Node, m': Node)
    requires m.FunctionDef? || m.Other?
    requires m.FunctionDef? <==> m'.FunctionDef?
    ensures TopLevelCodes(m) == [] ==> TopLevelCodes(m') == []
  {
  }

  lemma EntrypointKept(body: seq<Node>, body': seq<Node>, k: nat, statement: Node)
    requires k < |body| && |body'| == |body| && body' == body[k := body'[k]] && Grown(body[k], body'[k], statement)
    requires EntrypointClean(body)
    ensures EntrypointClean(body')
  {
    hide SignatureOk, AnyReturns, Grown, Entrypoints;
    GrownEntrypoints(body, body', k, statement);
    var f, f' := Entrypoints(body)[0], Entrypoints(body')[0];
    if f' != f {
      GrownName(f, f', statement);
      GrownFunctionReturns(f, f', statement);
    }
  }

  /** `f = e` */
  function Binding(f: string, e: Node, line: int): Node {
    Assign([Name(f, true, line)], e, line)
  }

  lemma BindingHarmless(f: string, e: Node, line: int, t: Tables, functions: set<string>)
    requires !Private(f) && Harmless(e, t, functions)
    ensures Harmless(Binding(f, e, line), t, functions)
  {
    hide Harmless;
    var target := Name(f, true, line);
    assert AllHarmless(Children(target), t, functions);
    HarmlessNode(target, t, functions);
    assert Children(Binding(f, e, line)) == [target, e];
    HarmlessNode(Binding(f, e, line), t, functions);
  }

  /** Binding any public name to any harmless value, in any function, is accepted: acceptance never tracks bindings. */
  lemma BindingNeverRefused(body: seq<Node>, body': seq<Node>, f: string, e: Node, line: int)
    requires ViolationFree(body) && !Private(f)
    requires AlwaysHarmless(e, Preorder(Module(body)), FunctionNames(body))
    requires OneGrown(body, body', Binding(f, e, line))
    ensures ViolationFree(body')
  {
    hide ViolationFree, OneGrown, Harmless, Preorder, TracksOnly, Binding;
    var all, functions := Preorder(Module(body)), FunctionNames(body);
    forall t | TracksOnly(t, all) ensures Harmless(Binding(f, e, line), t, functions) {
      BindingHarmless(f, e, line, t, functions);
    }
    InsertionKeepsVerdict(body, body', Binding(f, e, line));
  }

  // ------------------------------------------------------------------- attributes of values

  /** The expression is no chain on a name that the nodes import as a module. */
  ghost predicate OffModules(n: Node, all: seq<Node>) {
    ChainRoot(n).Some? ==> !Aliased(all, ChainRoot(n).value)
  }

  lemma AttributeClean(base: Node, attr: string, line: int, t: Tables, all: seq<Node>, functions: set<string>)
    requires TracksOnly(t, all) && OffModules(base, all)
    ensures NodeClean(Attribute(base, attr, line), t, functions) <==> !Private(attr)
  {
    hide Private, Aliased, ChainAttributes;
    assert ModuleOf(ChainRoot(base), t).None?;
  }

  lemma {:induction false} GrownHolds(m: Node, m': Node, statement: Node)
    requires Grown(m, m', statement)
    ensures Within(statement, m')
    decreases m, 0
  {
    hide Within;
    match m
    case FunctionDef(_, _, body, _, _, _) =>
      if k :| 0 <= k <= |body| && m'.body == body[..k] + [statement] + body[k..] {
        assert m'.body[k] == statement;
        WithinItself(statement);
        WithinParent(statement, statement, m');
      } else {
        var k :| 0 <= k < |body| && m'.body == body[k := m'.body[k]] && Grown(body[k], m'.body[k], statement);
        GrownHolds(body[k], m'.body[k], statement);
        WithinParent(statement, m'.body[k], m');
      }
    case Other(_, children, _) =>
      var k :| 0 <= k < |children| && m'.children == children[k := m'.children[k]]
            && Grown(children[k], m'.children[k], statement);
      GrownHolds(children[k], m'.children[k], statement);
      WithinParent(statement, m'.children[k], m');
  }

  /** Nothing but the attribute's own name decides: taking it of a harmless value that is no module chain. */
  lemma AttributeAcceptedExactly(
      body: seq<Node>, body': seq<Node>, f: string, base: Node, attr: string, line: int)
    requires ViolationFree(body) && !Private(f) && OffModules(base, Preorder(Module(body)))
    requires AlwaysHarmless(base, Preorder(Module(body)), FunctionNames(body))
    requires OneGrown(body, body', Binding(f, Attribute(base, attr, line), line))
    ensures ViolationFree(body') <==> !Private(attr)
  {
    hide ViolationFree, OneGrown, Harmless, Preorder, TracksOnly, Private, OffModules;
    var access := Attribute(base, attr, line);
    var all, functions := Preorder(Module(body)), FunctionNames(body);
    if !Private(attr) {
      forall t | TracksOnly(t, all) ensures Harmless(access, t, functions) {
        AttributeClean(base, attr, line, t, all, functions);
        assert Harmless(base, t, functions) && Children(access) == [base];
        HarmlessNode(access, t, functions);
      }
      BindingNeverRefused(body, body', f, access, line);
    } else if ViolationFree(body') {
      PrivateAccessHeld(body, body', f, access, line);
    }
  }

  lemma BindingHolds(f: string, e: Node, line: int)
    ensures Within(e, Binding(f, e, line))
  {
    hide Within;
    WithinItself(e);
    assert Children(Binding(f, e, line))[1] == e;
    WithinParent(e, e, Binding(f, e, line));
  }

  lemma PrivateAccessHeld(body: seq<Node>, body': seq<Node>, f: string, access: Node, line: int)
    requires OneGrown(body, body', Binding(f, access, line)) && access.Attribute? && ViolationFree(body')
    ensures !Private(access.attr)
  {
    hide ViolationFree, Within, Preorder, Private, Binding;
    assert Grown(Module(body), Module(body'), Binding(f, access, line));
    hide OneGrown, Grown;
    GrownHolds(Module(body), Module(body'), Binding(f, access, line));
    BindingHolds(f, access, line);
    WithinTransitive(access, Binding(f, access, line), Module(body'));
    ViolationFreeIsSafe(body', access);
    var nodes := Preorder(Module(body'));
    var i :| 0 <= i < |nodes| && nodes[i] == access;
    assert NodeAllowed(nodes, i, FunctionNames(body'));
  }

  // ---------------------------------------------------------------- attributes of class patterns

  /** `match subject: case cls(a=..., ...): pass`, with any attribute names and sub-patterns. */
  function Match(subject: Node, cls: Node, attrs: seq<string>, matched: seq<Node>, line: int): Node {
    Other(Plain, [subject, Other(Plain, [ClassPattern(cls, attrs, matched, line), Other(Plain, [], line)], line)], line)
  }

  lemma MatchHarmless(subject: Node, cls: Node, attrs: seq<string>, matched: seq<Node>, line: int, t: Tables,
                      functions: set<string>)
    requires Harmless(subject, t, functions) && Harmless(cls, t, functions) && AllHarmless(matched, t, functions)
    ensures Harmless(Match(subject, cls, attrs, matched, line), t, functions)
  {
    hide Harmless;
    var pattern, pass := ClassPattern(cls, attrs, matched, line), Other(Plain, [], line);
    var whole := Match(subject, cls, attrs, matched, line);
    assert Children(pattern) == [cls] + matched;
    HarmlessNode(pattern, t, functions);
    HarmlessNode(pass, t, functions);
    assert Children(whole.children[1]) == [pattern, pass];
    HarmlessNode(whole.children[1], t, functions);
    assert Children(whole) == [subject, whole.children[1]];
    HarmlessNode(whole, t, functions);
  }

  /**
   * Matching a class pattern is accepted in any function of an accepted program whatever attributes it names: the
   * verdict never depends on them.
   */
  lemma PatternAttributesNeverRefused(
      body: seq<Node>, body': seq<Node>, subject: Node, cls: Node, attrs: seq<string>, matched: seq<Node>, line: int)
    requires ViolationFree(body)
    requires var all, functions := Preorder(Module(body)), FunctionNames(body);
             && AlwaysHarmless(subject, all, functions) && AlwaysHarmless(cls, all, functions)
             && forall i | 0 <= i < |matched| :: AlwaysHarmless(matched[i], all, functions)
    requires OneGrown(body, body', Match(subject, cls, attrs, matched, line))
    ensures ViolationFree(body')
  {
    hide ViolationFree, OneGrown, Harmless, Match, Preorder, TracksOnly;
    var all, functions := Preorder(Module(body)), FunctionNames(body);
    var statement := Match(subject, cls, attrs, matched, line);
    forall t | TracksOnly(t, all) ensures Harmless(statement, t, functions) {
      assert Harmless(subject, t, functions) && Harmless(cls, t, functions);
      assert AllHarmless(matched, t, functions);
      MatchHarmless(subject, cls, attrs, matched, line, t, functions);
    }
    InsertionKeepsVerdict(body, body', statement);
  }
}
