/** The static source policy: a stateful visitor over the syntax tree of an untrusted program. */
module SourcePolicy {
  import opened Json

  // --------------------------------------------------------- the syntax tree

  datatype Alias = Alias(name: string, asname: Option<string>)

  /** `nodes` are the annotations and default values in visiting order. */
  datatype Params = Params(
    posonly: seq<string>, regular: seq<string>, vararg: Option<string>, kwonly: seq<string>,
    kwarg: Option<string>, defaults: nat, kwDefaults: seq<bool>, nodes: seq<Node>)

  datatype CollectionKind = TupleKind | ListKind | SetKind

  /** Node classes without a rule of their own; all but the last are refused outright. */
  datatype OtherKind =
    | AsyncFunctionDef | Await | ClassDef | Delete | Global | Lambda | Nonlocal | Raise
    | Try | TryStar | With | Yield | YieldFrom
    | Plain

  /**
   * `store` tells a name that is bound from one that is read; an annotated name is `simple` unless in parentheses. A
   * Capture is a pattern that binds a name, a ClassPattern one that names a class and attributes to match, a Generator
   * one `for ... in ... if ...` of a comprehension. The names of captures and pattern attributes are plain strings,
   * which no visiting rule looks at.
   */
  datatype Node =
    | Name(id: string, store: bool, line: int)
    | Attribute(value: Node, attr: string, line: int)
    | Call(func: Node, arguments: seq<Node>, line: int)
    | Import(names: seq<Alias>, line: int)
    | ImportFrom(level: nat, origin: Option<string>, names: seq<Alias>, line: int)
    | FunctionDef(
        name: string, params: Params, body: seq<Node>, decorators: seq<Node>, resultHint: seq<Node>, line: int)
    | Return(result: seq<Node>, line: int)
    | Constant(isText: bool, line: int)
    | Collection(kind: CollectionKind, elements: seq<Node>, line: int)
    | Dict(keys: seq<Node>, spread: bool, values: seq<Node>, line: int)
    | UnaryOp(isSign: bool, operand: Node, line: int)
    | Assign(targets: seq<Node>, rhs: Node, line: int)
    | AnnAssign(target: Node, annotation: Node, optional: seq<Node>, simple: bool, line: int)
    | Expr(expression: Node, line: int)
    | Capture(captured: string, patterns: seq<Node>, line: int)
    | ClassPattern(cls: Node, attrs: seq<string>, matched: seq<Node>, line: int)
    | Comprehension(results: seq<Node>, generators: seq<Node>, line: int)
    | Generator(item: Node, iterable: Node, conditions: seq<Node>, line: int)
    | Other(other: OtherKind, children: seq<Node>, line: int)

  /** Child nodes in the order the generic visit takes them. */
  function Children(n: Node): seq<Node> {
    match n
    case Name(_, _, _) => []
    case Attribute(value, _, _) => [value]
    case Call(func, arguments, _) => [func] + arguments
    case Import(_, _) => []
    case ImportFrom(_, _, _, _) => []
    case FunctionDef(_, params, body, decorators, resultHint, _) => params.nodes + body + decorators + resultHint
    case Return(result, _) => result
    case Constant(_, _) => []
    case Collection(_, elements, _) => elements
    case Dict(keys, _, values, _) => keys + values
    case UnaryOp(_, operand, _) => [operand]
    case Assign(targets, rhs, _) => targets + [rhs]
    case AnnAssign(target, annotation, optional, _, _) => [target, annotation] + optional
    case Expr(expression, _) => [expression]
    case Capture(_, patterns, _) => patterns
    case ClassPattern(cls, _, matched, _) => [cls] + matched
    case Comprehension(results, generators, _) => results + generators
    case Generator(item, iterable, conditions, _) => [item, iterable] + conditions
    case Other(_, children, _) => children
  }

  lemma ChildrenSmaller(n: Node)
    ensures forall i | 0 <= i < |Children(n)| :: Children(n)[i] < n
  {
  }

  // ------------------------------------------------------------ allow lists

  /** Symbols importable from cadquery. */
  predicate CadQuerySymbol(name: string) {
    name in {
      "Compound", "Location", "Matrix", "Plane", "Shape", "Vector", "Workplane"}
  }

  /** Symbols importable from math. */
  predicate MathSymbol(name: string) {
    name in {
      "acos", "asin", "atan", "atan2", "ceil", "cos", "degrees", "floor", "hypot", "pi", "radians",
      "sin", "sqrt", "tan", "tau"}
  }

  predicate MathCall(name: string) {
    MathSymbol(name) && name != "pi" && name != "tau"
  }

  predicate KnownModule(name: string) {
    name == "cadquery" || name == "math"
  }

  /** Builtins a program may call. */
  predicate BuiltinCall(name: string) {
    name in {
      "abs", "all", "any", "bool", "enumerate", "float", "int", "len", "list", "max", "min",
      "range", "round", "sum", "tuple", "zip"}
  }

  /** CadQuery methods a program may call. */
  predicate MethodCall(name: string) {
    name in {
      "add", "all", "arc", "box", "cboreHole", "center", "chamfer", "circle", "clean", "close",
      "combine", "cone", "copyWorkplane", "cskHole", "cut", "cutBlind", "cutThruAll", "cylinder",
      "each", "eachpoint", "edges", "ellipse", "end", "extrude", "faces", "fillet", "first",
      "hLine", "hLineTo", "hole", "intersect", "item", "last", "line", "lineTo", "loft", "mirror",
      "mirrorX", "mirrorY", "move", "moveTo", "offset2D", "polygon", "polyline", "pushPoints",
      "radiusArc", "rect", "revolve", "rotate", "rotateAboutCenter", "sagittaArc", "section",
      "shell", "shells", "slot2D", "solids", "sphere", "split", "spline", "sweep", "tag",
      "tangentArcPoint", "text", "threePointArc", "toPending", "transformGeometry", "transformed",
      "translate", "twistExtrude", "union", "vLine", "vLineTo", "vertices", "wedge", "wire",
      "wires", "workplane"}
  }

  /** Names that may not be called even when the program defines them. */
  predicate ForbiddenCall(name: string) {
    name in {
      "__import__", "breakpoint", "compile", "delattr", "dir", "eval", "exec", "getattr",
      "globals", "help", "input", "locals", "memoryview", "open", "setattr", "type", "vars"}
  }

  /** CadQuery submodules no program may reach. */
  predicate ForbiddenModule(name: string) {
    name in {
      "exporters", "importers", "occ_impl", "plugins", "selectors"}
  }

  predicate Private(name: string) {
    name != "" && name[0] == '_'
  }

  predicate ForbiddenNode(n: Node) {
    n.Other? && !n.other.Plain?
  }

  // ---------------------------------------------------------- attribute chain

  /** The plain name an attribute chain starts from, if it starts from one. */
  function ChainRoot(n: Node): Option<string> {
    match n
    case Attribute(value, _, _) => ChainRoot(value)
    case Name(id, _, _) => Some(id)
    case _ => None
  }

  function ChainAttributes(n: Node): seq<string> {
    if n.Attribute? then ChainAttributes(n.value) + [n.attr] else []
  }

  function Reversed(s: seq<string>): seq<string> {
    if s == [] then [] else Reversed(s[1..]) + [s[0]]
  }

  lemma {:induction false} ReversedAppend(s: seq<string>, x: string)
    ensures Reversed(s + [x]) == [x] + Reversed(s)
  {
    if s != [] {
      assert (s + [x])[1..] == s[1..] + [x];
      ReversedAppend(s[1..], x);
    }
  }

  /** `_attribute_chain` */
  method AttributeChain(n: Node) returns (root: Option<string>, attributes: seq<string>)
    ensures root == ChainRoot(n) && attributes == ChainAttributes(n)
  {
    var collected: seq<string> := [];
    var value := n;
    while value.Attribute?
      invariant ChainRoot(value) == ChainRoot(n)
      invariant ChainAttributes(value) + Reversed(collected) == ChainAttributes(n)
      decreases value
    {
      ReversedAppend(collected, value.attr);
      collected := collected + [value.attr];
      value := value.value;
    }
    attributes := Reversed(collected);
    root := if value.Name? then Some(value.id) else None;
  }

  // --------------------------------------------------------------- the rules

  datatype Code =
    | CadQueryAttributeNotAllowed | CadQueryCallNotAllowlisted | CadQueryModuleNotAllowed
    | CallNotAllowlisted | DangerousCallNotAllowed | DynamicCallNotAllowed
    | EntrypointMissingOrDuplicate | EntrypointReturnMissing | EntrypointSignatureInvalid
    | FunctionDefinitionNotAllowed | FunctionSignatureNotAllowed
    | ImportNotAllowed | ImportSymbolNotAllowed | RelativeImportNotAllowed | StarImportNotAllowed
    | MathAttributeNotAllowed | MathCallNotAllowlisted | MethodCallNotAllowlisted
    | PrivateAttributeNotAllowed | PrivateNameNotAllowed | SyntaxNotAllowed
    | TopLevelExecutionNotAllowed | TopLevelAssignmentTargetNotAllowed

  datatype Violation = Violation(code: Code, line: Option<int>)

  /** What the visitor has learnt from the imports visited so far. */
  datatype Tables = Tables(aliases: map<string, string>, calls: set<string>, imports: set<string>)

  function Bound(alias: Alias): string {
    if alias.asname.Some? && alias.asname.value != "" then alias.asname.value else alias.name
  }

  function ImportCodes(alias: Alias): seq<Code> {
    if !KnownModule(alias.name) then [ImportNotAllowed]
    else if Private(Bound(alias)) then [PrivateNameNotAllowed]
    else []
  }

  function ImportTables(alias: Alias, t: Tables): Tables {
    if ImportCodes(alias) != [] then t
    else t.(aliases := t.aliases[Bound(alias) := alias.name], imports := t.imports + {alias.name})
  }

  predicate SymbolOf(origin: string, name: string) {
    if origin == "cadquery" then CadQuerySymbol(name) else MathSymbol(name)
  }

  function FromCodes(origin: string, alias: Alias): seq<Code> {
    if alias.name == "*" then [StarImportNotAllowed]
    else if !SymbolOf(origin, alias.name) then [ImportSymbolNotAllowed]
    else if Private(Bound(alias)) then [PrivateNameNotAllowed]
    else []
  }

  function FromTables(origin: string, alias: Alias, t: Tables): Tables {
    if FromCodes(origin, alias) != [] then t
    else
      t.(calls := if origin == "cadquery" || MathCall(alias.name) then t.calls + {Bound(alias)} else t.calls,
         imports := t.imports + {origin + "." + alias.name})
  }

  function FunctionCodes(name: string, params: Params, decorators: seq<Node>): seq<Code> {
    (if Private(name) || decorators != [] then [FunctionDefinitionNotAllowed] else [])
    + (if params.defaults > 0 || true in params.kwDefaults then [FunctionSignatureNotAllowed] else [])
  }

  function ModuleOf(root: Option<string>, t: Tables): Option<string> {
    if root.Some? && root.value in t.aliases then Some(t.aliases[root.value]) else None
  }

  function ChainCodes(module_: Option<string>, attributes: seq<string>): seq<Code> {
    if attributes == [] then []
    else if module_ == Some("cadquery") then
      if ForbiddenModule(attributes[0]) then [CadQueryModuleNotAllowed]
      else if |attributes| == 1 && !CadQuerySymbol(attributes[0]) && !MethodCall(attributes[0]) then
        [CadQueryAttributeNotAllowed]
      else []
    else if module_ == Some("math") && (|attributes| != 1 || !MathSymbol(attributes[0])) then
      [MathAttributeNotAllowed]
    else []
  }

  function AttributeCodes(n: Node, t: Tables): seq<Code>
    requires n.Attribute?
  {
    (if Private(n.attr) then [PrivateAttributeNotAllowed] else [])
    + ChainCodes(ModuleOf(ChainRoot(n), t), ChainAttributes(n))
  }

  function NamedCallCodes(name: string, t: Tables, functions: set<string>): seq<Code> {
    if ForbiddenCall(name) then [DangerousCallNotAllowed]
    else if !BuiltinCall(name) && name !in t.calls && name !in functions then [CallNotAllowlisted]
    else []
  }

  function MethodCallCodes(module_: Option<string>, attributes: seq<string>): seq<Code>
    requires attributes != []
  {
    var leaf := attributes[|attributes| - 1];
    if module_ == Some("cadquery") && |attributes| == 1 then
      if !CadQuerySymbol(leaf) then [CadQueryCallNotAllowlisted] else []
    else if module_ == Some("math") && |attributes| == 1 then
      if !MathCall(leaf) then [MathCallNotAllowlisted] else []
    else if !MethodCall(leaf) then [MethodCallNotAllowlisted]
    else []
  }

  function CallCodes(func: Node, t: Tables, functions: set<string>): seq<Code> {
    match func
    case Name(id, _, _) => NamedCallCodes(id, t, functions)
    case Attribute(_, _, _) => MethodCallCodes(ModuleOf(ChainRoot(func), t), ChainAttributes(func))
    case _ => [DynamicCallNotAllowed]
  }

  // ------------------------------------------- the visit as a fold over nodes

  datatype State = State(violations: seq<Violation>, tables: Tables)

  /** A violation is kept once per code and line. */
  function Added(s: State, code: Code, line: Option<int>): State {
    var v := Violation(code, line);
    if v in s.violations then s else s.(violations := s.violations + [v])
  }

  function AddedAll(s: State, codes: seq<Code>, line: Option<int>): State
    decreases |codes|
  {
    if codes == [] then s else AddedAll(Added(s, codes[0], line), codes[1..], line)
  }

  lemma AddedOne(s: State, code: Code, line: Option<int>)
    ensures AddedAll(s, [code], line) == Added(s, code, line)
  {
  }

  function EnterImports(s: State, names: seq<Alias>, line: int): State
    decreases |names|
  {
    if names == [] then s else EnterImports(EnterImport(s, names[0], line), names[1..], line)
  }

  function EnterImport(s: State, alias: Alias, line: int): State {
    AddedAll(s, ImportCodes(alias), Some(line)).(tables := ImportTables(alias, s.tables))
  }

  function EnterFrom(s: State, origin: string, names: seq<Alias>, line: int): State
    decreases |names|
  {
    if names == [] then s else EnterFrom(EnterFromName(s, origin, names[0], line), origin, names[1..], line)
  }

  function EnterFromName(s: State, origin: string, alias: Alias, line: int): State {
    AddedAll(s, FromCodes(origin, alias), Some(line)).(tables := FromTables(origin, alias, s.tables))
  }

  /** What visiting one node does before its children are visited. */
  function Enter(s: State, n: Node, functions: set<string>): State {
    match n
    case Name(id, _, line) => AddedAll(s, if Private(id) then [PrivateNameNotAllowed] else [], Some(line))
    case Attribute(_, _, line) => AddedAll(s, AttributeCodes(n, s.tables), Some(line))
    case Call(func, _, line) => AddedAll(s, CallCodes(func, s.tables, functions), Some(line))
    case Import(names, line) => EnterImports(s, names, line)
    case ImportFrom(level, origin, names, line) =>
      if level != 0 then AddedAll(s, [RelativeImportNotAllowed], Some(line))
      else if origin.None? || !KnownModule(origin.value) then AddedAll(s, [ImportNotAllowed], Some(line))
      else EnterFrom(s, origin.value, names, line)
    case FunctionDef(name, params, _, decorators, _, line) =>
      AddedAll(s, FunctionCodes(name, params, decorators), Some(line))
    case _ => AddedAll(s, if ForbiddenNode(n) then [SyntaxNotAllowed] else [], Some(n.line))
  }

  function Preorder(n: Node): seq<Node>
    decreases n, 1
  {
    ChildrenSmaller(n);
    [n] + PreorderAll(Children(n), n)
  }

  function PreorderAll(nodes: seq<Node>, ghost bound: Node): seq<Node>
    requires forall i | 0 <= i < |nodes| :: nodes[i] < bound
    decreases bound, 0, |nodes|
  {
    if nodes == [] then [] else Preorder(nodes[0]) + PreorderAll(nodes[1..], bound)
  }

  function Fold(s: State, nodes: seq<Node>, functions: set<string>): State
    decreases |nodes|
  {
    if nodes == [] then s else Fold(Enter(s, nodes[0], functions), nodes[1..], functions)
  }

  // ------------------------------------------------- top level and entrypoint

  predicate IsStaticValue(n: Node) {
    match n
    case Constant(_, _) => true
    case Collection(_, elements, _) => forall i | 0 <= i < |elements| :: IsStaticValue(elements[i])
    case Dict(keys, spread, values, _) =>
      && !spread
      && (forall i | 0 <= i < |keys| :: IsStaticValue(keys[i]))
      && (forall i | 0 <= i < |values| :: IsStaticValue(values[i]))
    case UnaryOp(isSign, operand, _) => isSign && IsStaticValue(operand)
    case _ => false
  }

  predicate IsStaticTarget(n: Node) {
    match n
    case Name(id, _, _) => !Private(id)
    case Collection(kind, elements, _) =>
      !kind.SetKind? && forall i | 0 <= i < |elements| :: IsStaticTarget(elements[i])
    case _ => false
  }

  function TopLevelCodes(item: Node): seq<Code> {
    match item
    case Import(_, _) => []
    case ImportFrom(_, _, _, _) => []
    case FunctionDef(_, _, _, _, _, _) => []
    case Expr(expression, _) =>
      if expression.Constant? && expression.isText then [] else [TopLevelExecutionNotAllowed]
    case Assign(targets, rhs, _) =>
      if !IsStaticValue(rhs) then [TopLevelExecutionNotAllowed]
      else if exists i | 0 <= i < |targets| :: !IsStaticTarget(targets[i]) then [TopLevelAssignmentTargetNotAllowed]
      else []
    case AnnAssign(target, _, optional, _, _) =>
      if optional != [] && !IsStaticValue(optional[0]) then [TopLevelExecutionNotAllowed]
      else if !IsStaticTarget(target) then [TopLevelAssignmentTargetNotAllowed]
      else []
    case _ => [TopLevelExecutionNotAllowed]
  }

  function TopLevel(s: State, body: seq<Node>): State
    decreases |body|
  {
    if body == [] then s
    else TopLevel(AddedAll(s, TopLevelCodes(body[0]), Some(body[0].line)), body[1..])
  }

  /** A return statement below n, not counting nested functions and classes. */
  predicate ReturnsIn(n: Node)
    decreases n
  {
    ChildrenSmaller(n);
    || n.Return?
    || (!OpensScope(n) && exists i | 0 <= i < |Children(n)| :: ReturnsIn(Children(n)[i]))
  }

  predicate OpensScope(n: Node) {
    n.FunctionDef? || (n.Other? && (n.other.AsyncFunctionDef? || n.other.ClassDef?))
  }

  predicate AnyReturns(nodes: seq<Node>) {
    exists i | 0 <= i < |nodes| :: ReturnsIn(nodes[i])
  }

  const ENTRYPOINT := "build_model"

  function Entrypoints(body: seq<Node>): seq<Node> {
    if body == [] then []
    else
      Entrypoints(body[..|body| - 1])
      + (var last := body[|body| - 1];
         if last.FunctionDef? && last.name == ENTRYPOINT then [last] else [])
  }

  predicate SignatureOk(params: Params, decorators: seq<Node>) {
    && decorators == [] && params.posonly == [] && params.regular == ["parameters"] && params.kwonly == []
    && params.vararg.None? && params.kwarg.None? && params.defaults == 0 && params.kwDefaults == []
  }

  function Entrypoint(s: State, body: seq<Node>): State {
    var matches := Entrypoints(body);
    if |matches| != 1 || !matches[0].FunctionDef? then Added(s, EntrypointMissingOrDuplicate, None)
    else
      var f := matches[0];
      AddedAll(s, (if SignatureOk(f.params, f.decorators) then [] else [EntrypointSignatureInvalid])
                  + (if AnyReturns(f.body) then [] else [EntrypointReturnMissing]), Some(f.line))
  }

  function FunctionNames(body: seq<Node>): set<string> {
    set i | 0 <= i < |body| && body[i].FunctionDef? :: body[i].name
  }

  const START := State([], Tables(map[], {}, {}))

  function Module(body: seq<Node>): Node {
    Other(Plain, body, 0)
  }

  /** The verdict as three passes: top level, entrypoint, and the fold over the whole tree. */
  function Validated(body: seq<Node>): State {
    Fold(Entrypoint(TopLevel(START, body), body), Preorder(Module(body)), FunctionNames(body))
  }

  lemma {:induction false} FoldConcat(s: State, x: seq<Node>, y: seq<Node>, functions: set<string>)
    ensures Fold(s, x + y, functions) == Fold(Fold(s, x, functions), y, functions)
    decreases |x|
  {
    if x == [] {
      assert x + y == y;
    } else {
      assert (x + y)[0] == x[0] && (x + y)[1..] == x[1..] + y;
      FoldConcat(Enter(s, x[0], functions), x[1..], y, functions);
    }
  }

  // ------------------------------------------------ the worklist for returns

  function NodeCount(n: Node): nat
    decreases n, 1
  {
    ChildrenSmaller(n);
    1 + NodeCounts(Children(n), n)
  }

  function NodeCounts(nodes: seq<Node>, ghost bound: Node): nat
    requires forall i | 0 <= i < |nodes| :: nodes[i] < bound
    decreases bound, 0, |nodes|
  {
    if nodes == [] then 0
    else NodeCounts(nodes[..|nodes| - 1], bound) + NodeCount(nodes[|nodes| - 1])
  }

  /** Total size of the pending nodes; it shrinks whichever node is taken. */
  ghost function Pending(nodes: seq<Node>): nat {
    if nodes == [] then 0 else Pending(nodes[..|nodes| - 1]) + NodeCount(nodes[|nodes| - 1])
  }

  lemma {:induction false} PendingConcat(x: seq<Node>, y: seq<Node>)
    ensures Pending(x + y) == Pending(x) + Pending(y)
  {
    if y == [] {
      assert x + y == x;
    } else {
      assert (x + y)[..|x + y| - 1] == x + y[..|y| - 1];
      PendingConcat(x, y[..|y| - 1]);
    }
  }

  lemma {:induction false} CountsArePending(nodes: seq<Node>, bound: Node)
    requires forall i | 0 <= i < |nodes| :: nodes[i] < bound
    ensures NodeCounts(nodes, bound) == Pending(nodes)
  {
    if nodes != [] {
      CountsArePending(nodes[..|nodes| - 1], bound);
    }
  }

  lemma CountOne(n: Node)
    ensures Pending([n]) == NodeCount(n) == 1 + Pending(Children(n))
  {
    ChildrenSmaller(n);
    CountsArePending(Children(n), n);
    assert [n][..0] == [];
  }

  lemma TakeOne(nodes: seq<Node>, i: nat)
    requires i < |nodes|
    ensures Pending(nodes[..i] + nodes[i + 1..]) + 1 + Pending(Children(nodes[i])) == Pending(nodes)
  {
    hide *;
    CountOne(nodes[i]);
    assert nodes == (nodes[..i] + [nodes[i]]) + nodes[i + 1..];
    PendingConcat(nodes[..i] + [nodes[i]], nodes[i + 1..]);
    PendingConcat(nodes[..i], [nodes[i]]);
    PendingConcat(nodes[..i], nodes[i + 1..]);
  }

  lemma ReturnsElsewhere(nodes: seq<Node>, i: nat)
    requires i < |nodes|
    ensures AnyReturns(nodes) <==> ReturnsIn(nodes[i]) || AnyReturns(nodes[..i] + nodes[i + 1..])
  {
    hide ReturnsIn;
    var rest := nodes[..i] + nodes[i + 1..];
    if j :| 0 <= j < |rest| && ReturnsIn(rest[j]) {
      assert ReturnsIn(nodes[if j < i then j else j + 1]);
    }
    if j :| 0 <= j < |nodes| && j != i && ReturnsIn(nodes[j]) {
      assert ReturnsIn(rest[if j < i then j else j - 1]);
    }
  }

  lemma AnyReturnsConcat(x: seq<Node>, y: seq<Node>)
    ensures AnyReturns(x + y) <==> AnyReturns(x) || AnyReturns(y)
  {
    if i :| 0 <= i < |x| && ReturnsIn(x[i]) {
      assert ReturnsIn((x + y)[i]);
    }
    if i :| 0 <= i < |y| && ReturnsIn(y[i]) {
      assert ReturnsIn((x + y)[|x| + i]);
    }
  }

  /** `_function_has_return`, taking the pending nodes in any order at all. */
  method FunctionHasReturn(body: seq<Node>) returns (found: bool)
    ensures found <==> AnyReturns(body)
  {
    var pending := body;
    while pending != []
      invariant AnyReturns(body) <==> AnyReturns(pending)
      decreases Pending(pending)
    {
      var i: nat :| i < |pending|;
      var n := pending[i];
      TakeOne(pending, i);
      ReturnsElsewhere(pending, i);
      pending := pending[..i] + pending[i + 1..];
      if n.Return? { return true; }
      if !OpensScope(n) {
        ChildrenSmaller(n);
        AnyReturnsConcat(pending, Children(n));
        PendingConcat(pending, Children(n));
        pending := pending + Children(n);
      }
    }
    return false;
  }

  // --------------------------------------------------- the visitor, in place

  class SourceVisitor {
    const functionNames: set<string>
    var violations: seq<Violation>
    var violationKeys: set<(Code, Option<int>)>
    var moduleAliases: map<string, string>
    var importedCallNames: set<string>
    var imports: set<string>

    ghost predicate Valid()
      reads this
    {
      forall v :: v in violations <==> (v.code, v.line) in violationKeys
    }

    ghost function Abstract(): State
      reads this
    {
      State(violations, Tables(moduleAliases, importedCallNames, imports))
    }

    constructor (body: seq<Node>)
      ensures Valid() && Abstract() == START && functionNames == FunctionNames(body)
    {
      functionNames := FunctionNames(body);
      violations, violationKeys, moduleAliases, importedCallNames, imports := [], {}, map[], {}, {};
    }

    method Add(code: Code, line: Option<int>)
      requires Valid()
      modifies this`violations, this`violationKeys
      ensures Valid() && Abstract() == Added(old(Abstract()), code, line)
    {
      if (code, line) in violationKeys {
        assert Violation(code, line) in violations;
        return;
      }
      violationKeys := violationKeys + {(code, line)};
      violations := violations + [Violation(code, line)];
    }

    /** Adds the codes of one visiting rule. */
    method AddAll(codes: seq<Code>, line: Option<int>)
      requires Valid()
      modifies this`violations, this`violationKeys
      ensures Valid() && Abstract() == AddedAll(old(Abstract()), codes, line)
    {
      for i := 0 to |codes|
        invariant Valid() && moduleAliases == old(moduleAliases)
        invariant importedCallNames == old(importedCallNames) && imports == old(imports)
        invariant AddedAll(Abstract(), codes[i..], line) == AddedAll(old(Abstract()), codes, line)
      {
        Add(codes[i], line);
      }
    }

    method VisitImport(names: seq<Alias>, line: int)
      requires Valid()
      modifies this
      ensures Valid() && Abstract() == EnterImports(old(Abstract()), names, line)
    {
      for i := 0 to |names|
        invariant Valid()
        invariant EnterImports(Abstract(), names[i..], line) == EnterImports(old(Abstract()), names, line)
      {
        assert names[i..][1..] == names[i + 1..];
        VisitImportedModule(names[i], line);
      }
    }

    method VisitImportedModule(alias: Alias, line: int)
      requires Valid()
      modifies this
      ensures Valid() && Abstract() == EnterImport(old(Abstract()), alias, line)
    {
      var bound := Bound(alias);
      if !KnownModule(alias.name) {
        AddedOne(Abstract(), ImportNotAllowed, Some(line));
        Add(ImportNotAllowed, Some(line));
      } else if Private(bound) {
        AddedOne(Abstract(), PrivateNameNotAllowed, Some(line));
        Add(PrivateNameNotAllowed, Some(line));
      } else {
        moduleAliases := moduleAliases[bound := alias.name];
        imports := imports + {alias.name};
      }
    }

    method VisitImportFrom(level: nat, origin: Option<string>, names: seq<Alias>, line: int)
      requires Valid()
      modifies this
      ensures Valid() && Abstract() == Enter(old(Abstract()), ImportFrom(level, origin, names, line), functionNames)
    {
      if level != 0 || origin.None? || !KnownModule(origin.value) {
        var code := if level != 0 then RelativeImportNotAllowed else ImportNotAllowed;
        AddedOne(Abstract(), code, Some(line));
        Add(code, Some(line));
        return;
      }
      for i := 0 to |names|
        invariant Valid()
        invariant EnterFrom(Abstract(), origin.value, names[i..], line)
               == EnterFrom(old(Abstract()), origin.value, names, line)
      {
        assert names[i..][1..] == names[i + 1..];
        VisitImportedSymbol(origin.value, names[i], line);
      }
    }

    method VisitImportedSymbol(origin: string, alias: Alias, line: int)
      requires Valid()
      modifies this
      ensures Valid() && Abstract() == EnterFromName(old(Abstract()), origin, alias, line)
    {
      hide SymbolOf, MathCall;
      var bound := Bound(alias);
      if alias.name == "*" {
        AddedOne(Abstract(), StarImportNotAllowed, Some(line));
        Add(StarImportNotAllowed, Some(line));
      } else if !SymbolOf(origin, alias.name) {
        AddedOne(Abstract(), ImportSymbolNotAllowed, Some(line));
        Add(ImportSymbolNotAllowed, Some(line));
      } else if Private(bound) {
        AddedOne(Abstract(), PrivateNameNotAllowed, Some(line));
        Add(PrivateNameNotAllowed, Some(line));
      } else {
        if origin == "cadquery" || MathCall(alias.name) {
          importedCallNames := importedCallNames + {bound};
        }
        imports := imports + {origin + "." + alias.name};
      }
    }

    method VisitAttribute(n: Node)
      requires Valid() && n.Attribute?
      modifies this
      ensures Valid() && Abstract() == Enter(old(Abstract()), n, functionNames)
    {
      hide ChainCodes;
      var root, attributes := AttributeChain(n);
      var codes := ChainCodes(ModuleOf(root, Tables(moduleAliases, importedCallNames, imports)), attributes);
      AddAll((if Private(n.attr) then [PrivateAttributeNotAllowed] else []) + codes, Some(n.line));
    }

    method VisitCall(n: Node)
      requires Valid() && n.Call?
      modifies this
      ensures Valid() && Abstract() == Enter(old(Abstract()), n, functionNames)
    {
      hide NamedCallCodes, MethodCallCodes;
      var tables := Tables(moduleAliases, importedCallNames, imports);
      if n.func.Name? {
        AddAll(NamedCallCodes(n.func.id, tables, functionNames), Some(n.line));
      } else if n.func.Attribute? {
        var root, attributes := AttributeChain(n.func);
        AddAll(MethodCallCodes(ModuleOf(root, tables), attributes), Some(n.line));
      } else {
        AddAll([DynamicCallNotAllowed], Some(n.line));
      }
    }

    method EnterNode(n: Node)
      requires Valid()
      modifies this
      ensures Valid() && Abstract() == Enter(old(Abstract()), n, functionNames)
    {
      match n {
        case Name(id, _, line) =>
          AddAll(if Private(id) then [PrivateNameNotAllowed] else [], Some(line));
        case Attribute(_, _, _) => VisitAttribute(n);
        case Call(_, _, _) => VisitCall(n);
        case Import(names, line) => VisitImport(names, line);
        case ImportFrom(level, origin, names, line) => VisitImportFrom(level, origin, names, line);
        case FunctionDef(name, params, _, decorators, _, line) =>
          AddAll(FunctionCodes(name, params, decorators), Some(line));
        case _ =>
          AddAll(if ForbiddenNode(n) then [SyntaxNotAllowed] else [], Some(n.line));
      }
    }

    /** One visit: the node's own rule, then its children left to right. */
    method Visit(n: Node)
      requires Valid()
      modifies this
      ensures Valid() && Abstract() == Fold(old(Abstract()), Preorder(n), functionNames)
      decreases n, 1
    {
      hide Enter;
      ChildrenSmaller(n);
      FoldConcat(Abstract(), [n], PreorderAll(Children(n), n), functionNames);
      EnterNode(n);
      label entered:
      assert Abstract() == Fold(old(Abstract()), [n], functionNames);
      VisitAll(Children(n), n);
    }

    method VisitAll(nodes: seq<Node>, ghost bound: Node)
      requires Valid() && forall i | 0 <= i < |nodes| :: nodes[i] < bound
      modifies this
      ensures Valid() && Abstract() == Fold(old(Abstract()), PreorderAll(nodes, bound), functionNames)
      decreases bound, 0, |nodes|
    {
      hide Enter;
      if nodes != [] {
        FoldConcat(Abstract(), Preorder(nodes[0]), PreorderAll(nodes[1..], bound), functionNames);
        Visit(nodes[0]);
        VisitAll(nodes[1..], bound);
      }
    }

    method ValidateTopLevel(body: seq<Node>)
      requires Valid()
      modifies this
      ensures Valid() && Abstract() == TopLevel(old(Abstract()), body)
    {
      hide TopLevelCodes;
      for i := 0 to |body|
        invariant Valid() && TopLevel(Abstract(), body[i..]) == TopLevel(old(Abstract()), body)
      {
        assert body[i..][1..] == body[i + 1..];
        AddAll(TopLevelCodes(body[i]), Some(body[i].line));
      }
    }

    method ValidateEntrypoint(body: seq<Node>)
      requires Valid()
      modifies this
      ensures Valid() && Abstract() == Entrypoint(old(Abstract()), body)
    {
      var matches := Entrypoints(body);
      if |matches| != 1 || !matches[0].FunctionDef? {
        Add(EntrypointMissingOrDuplicate, None);
        return;
      }
      var f := matches[0];
      var returns_ := FunctionHasReturn(f.body);
      AddAll((if SignatureOk(f.params, f.decorators) then [] else [EntrypointSignatureInvalid])
             + (if returns_ then [] else [EntrypointReturnMissing]), Some(f.line));
    }
  }

  /** `validate` of the visitor: three passes over one mutable state. */
  method ValidateSource(body: seq<Node>) returns (violations: seq<Violation>, imports: set<string>)
    ensures violations == Validated(body).violations && imports == Validated(body).tables.imports
  {
    var visitor := new SourceVisitor(body);
    visitor.ValidateTopLevel(body);
    visitor.ValidateEntrypoint(body);
    visitor.Visit(Module(body));
    violations, imports := visitor.violations, visitor.imports;
  }
}
