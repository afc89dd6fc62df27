/** What a name can stand for when it is read, by Python's scoping rules (section 4.2 of the language reference). */
module NameResolution {
  import opened Json
  import opened SourcePolicy

  // ------------------------------------------------------------------ scopes

  /**
   * Where the value of a name comes from. `Annotated` makes a name local without giving it a value; `Written` stands
   * for a value put into a namespace other than by a binding of the program.
   */
  datatype Origin =
    | ImportedModule(name: string) | ImportedSymbol(origin: string, name: string)
    | Defined | Declared | Assigned | Annotated | Builtin | Written

  function AllParameters(params: Params): seq<string> {
    params.posonly + params.regular + params.kwonly
    + (if params.vararg.Some? then [params.vararg.value] else [])
    + (if params.kwarg.Some? then [params.kwarg.value] else [])
  }

  ghost predicate AnyContributes(nodes: seq<Node>, f: string, o: Origin)
    decreases nodes
  {
    exists i | 0 <= i < |nodes| :: Contributes(nodes[i], f, o)
  }

  /** Evaluated in a scope, m binds f in that scope; what it binds in scopes it opens does not count. */
  ghost predicate Contributes(m: Node, f: string, o: Origin)
    decreases m
  {
    ChildrenSmaller(m);
    match m
    case Name(id, store, _) => store && id == f && o == Assigned
    case Import(names, _) => exists k | 0 <= k < |names| :: Bound(names[k]) == f && o == ImportedModule(names[k].name)
    case ImportFrom(_, origin, names, _) =>
      origin.Some? && exists k | 0 <= k < |names| ::
        Bound(names[k]) == f && o == ImportedSymbol(origin.value, names[k].name)
    case FunctionDef(name, params, _, decorators, hint, _) =>
      || (name == f && o == Defined)
      || AnyContributes(params.nodes, f, o) || AnyContributes(decorators, f, o) || AnyContributes(hint, f, o)
    case AnnAssign(target, annotation, optional, simple, _) =>
      if optional == [] && target.Name? then
        (simple && target.id == f && o == Annotated) || Contributes(annotation, f, o)
      else Contributes(target, f, o) || Contributes(annotation, f, o) || AnyContributes(optional, f, o)
    case Capture(captured, patterns, _) => (captured == f && o == Assigned) || AnyContributes(patterns, f, o)
    case Generator(_, iterable, conditions, _) => Contributes(iterable, f, o) || AnyContributes(conditions, f, o)
    case _ => exists i | 0 <= i < |Children(m)| :: Contributes(Children(m)[i], f, o)
  }

  /** The scope binds f: a function by its parameters and body, a comprehension by its items, the module by its body. */
  ghost predicate ScopeBinds(scope: Node, f: string, o: Origin) {
    match scope
    case FunctionDef(_, params, body, _, _, _) =>
      (f in AllParameters(params) && o == Declared) || AnyContributes(body, f, o)
    case Comprehension(_, generators, _) =>
      exists k | 0 <= k < |generators| :: generators[k].Generator? && Contributes(generators[k].item, f, o)
    case _ => AnyContributes(Children(scope), f, o)
  }

  ghost predicate Binds(scope: Node, f: string) {
    exists o :: ScopeBinds(scope, f, o)
  }

  /** c is evaluated as part of m, and `inner` are then the open scopes, the innermost last. */
  ghost predicate Part(m: Node, scopes: seq<Node>, c: Node, inner: seq<Node>) {
    match m
    case FunctionDef(_, params, body, decorators, hint, _) =>
      || (c in body && inner == scopes + [m])
      || ((c in params.nodes || c in decorators || c in hint) && inner == scopes)
    case Comprehension(results, generators, _) =>
      || (c in results && inner == scopes + [m])
      || exists k | 0 <= k < |generators| && generators[k].Generator? ::
           || ((c == generators[k].item || c in generators[k].conditions) && inner == scopes + [m])
           || (c == generators[k].iterable && inner == if k == 0 then scopes else scopes + [m])
    case _ => c in Children(m) && inner == scopes
  }

  /** n occurs in m, and is evaluated with these scopes open. */
  ghost predicate At(m: Node, scopes: seq<Node>, n: Node, inner: seq<Node>)
    decreases m
  {
    (n == m && inner == scopes) || exists c, s :: c < m && Part(m, scopes, c, s) && At(c, s, n, inner)
  }

  /** n occurs in the program with these scopes open; the module itself is the outermost. */
  ghost predicate Occurs(body: seq<Node>, n: Node, scopes: seq<Node>) {
    exists k | 0 <= k < |body| :: At(body[k], [Module(body)], n, scopes)
  }

  // ------------------------------------------------------------------ lookup

  type Frame = map<string, Origin>

  /** What a name was found to be, and whether in the module or among the builtins. */
  datatype Found = Found(global: bool, origin: Origin)

  /** A frame holds values the scope's own bindings may have given, for some of its names. */
  ghost predicate ConsistentFrame(scope: Node, frame: Frame) {
    forall f | f in frame :: frame[f] != Annotated && ScopeBinds(scope, f, frame[f])
  }

  ghost predicate Consistent(scopes: seq<Node>, frames: seq<Frame>) {
    |frames| == |scopes| && forall i | 0 <= i < |scopes| :: ConsistentFrame(scopes[i], frames[i])
  }

  ghost function InModule(frame: Frame, f: string, builtins: string -> bool): Option<Found> {
    if f in frame then Some(Found(true, frame[f]))
    else if builtins(f) then Some(Found(true, Builtin))
    else None
  }

  /**
   * Reading f: the innermost scope that binds it anywhere decides, even before it has a value there; a name no
   * function binds is looked up in the module and then among the builtins. None is a NameError.
   */
  ghost function Lookup(scopes: seq<Node>, frames: seq<Frame>, f: string, builtins: string -> bool): Option<Found>
    requires scopes != [] && |frames| == |scopes|
    decreases |scopes|
  {
    var last := |scopes| - 1;
    if last == 0 then InModule(frames[0], f, builtins)
    else if Binds(scopes[last], f) then
      if f in frames[last] then Some(Found(false, frames[last][f])) else None
    else Lookup(scopes[..last], frames[..last], f, builtins)
  }

  /** Some moment of some execution can see f as this. */
  ghost predicate MayBe(scopes: seq<Node>, f: string, builtins: string -> bool, found: Found)
    requires scopes != []
  {
    exists frames :: Consistent(scopes, frames) && Lookup(scopes, frames, f, builtins) == Some(found)
  }

  /** The scope that decides what f is: the innermost function or comprehension that binds it, or the module. */
  ghost function Deciding(scopes: seq<Node>, f: string): nat
    requires scopes != []
    ensures Deciding(scopes, f) < |scopes|
    decreases |scopes|
  {
    var last := |scopes| - 1;
    if last == 0 || Binds(scopes[last], f) then last else Deciding(scopes[..last], f)
  }

  /** The values f can have are the bindings of the one scope that decides, and in the module also the builtin. */
  lemma {:induction false} MayBeExactly(scopes: seq<Node>, f: string, builtins: string -> bool, found: Found)
    requires scopes != []
    ensures var k := Deciding(scopes, f);
            MayBe(scopes, f, builtins, found) <==>
              && (found.global <==> k == 0)
              && (|| (found.origin != Annotated && ScopeBinds(scopes[k], f, found.origin))
                  || (k == 0 && found.origin == Builtin && builtins(f)))
    decreases |scopes|
  {
    hide ScopeBinds;
    var k := Deciding(scopes, f);
    if frames :| Consistent(scopes, frames) && Lookup(scopes, frames, f, builtins) == Some(found) {
      LookupDecided(scopes, frames, f, builtins);
    }
    if found.global <==> k == 0 {
      if found.origin != Annotated && ScopeBinds(scopes[k], f, found.origin) {
        Reached(scopes, OnlyAt(|scopes|, k, f, found.origin), f, builtins, found);
      } else if k == 0 && found.origin == Builtin && builtins(f) {
        Reached(scopes, NoFrames(|scopes|), f, builtins, found);
      }
    }
  }

  lemma Reached(scopes: seq<Node>, frames: seq<Frame>, f: string, builtins: string -> bool, found: Found)
    requires scopes != [] && Consistent(scopes, frames)
    requires var k := Deciding(scopes, f);
             found == if f in frames[k] then Found(k == 0, frames[k][f]) else Found(true, Builtin)
    requires var k := Deciding(scopes, f); f in frames[k] || (k == 0 && builtins(f))
    ensures MayBe(scopes, f, builtins, found)
  {
    hide ScopeBinds, Binds;
    LookupDecided(scopes, frames, f, builtins);
  }

  function NoFrames(n: nat): seq<Frame> {
    seq(n, _ => map[])
  }

  function OnlyAt(n: nat, k: nat, f: string, o: Origin): seq<Frame> {
    seq(n, i => if i == k then map[f := o] else map[])
  }

  lemma {:induction false} LookupDecided(
      scopes: seq<Node>, frames: seq<Frame>, f: string, builtins: string -> bool)
    requires scopes != [] && |frames| == |scopes|
    ensures var k := Deciding(scopes, f);
            Lookup(scopes, frames, f, builtins)
            == if k == 0 then InModule(frames[0], f, builtins)
               else if f in frames[k] then Some(Found(false, frames[k][f]))
               else None
    ensures forall i | Deciding(scopes, f) < i < |scopes| :: !Binds(scopes[i], f)
    decreases |scopes|
  {
    hide ScopeBinds, Binds;
    var last := |scopes| - 1;
    if last > 0 && !Binds(scopes[last], f) {
      LookupDecided(scopes[..last], frames[..last], f, builtins);
      assert forall i | 0 <= i < last :: scopes[..last][i] == scopes[i] && frames[..last][i] == frames[i];
    }
  }
}
