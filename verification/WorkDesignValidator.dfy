/** The proposal validator as it runs: entry lists and the set of used keys grow entry by entry. */
module WorkDesignValidator {
  import opened Json
  import opened Actions
  import opened WorkDesignContract
  import opened WorkDesignProposal

  /** The entries done so far, in front of what the remaining ones give. */
  function Onto(done: seq<Value>, rest: Checked<seq<Value>>): Checked<seq<Value>> {
    if rest.Ok? then Ok(done + rest.value) else rest
  }

  lemma OntoNext(done: seq<Value>, item: Value, rest: Checked<seq<Value>>)
    ensures Onto(done + [item], rest) == Onto(done, Onto([item], rest))
  {
    if rest.Ok? { assert (done + [item]) + rest.value == done + ([item] + rest.value); }
  }

  lemma OntoEnds(items: seq<Value>, rest: Checked<seq<Value>>)
    ensures Onto([], rest) == rest && Onto(items, Ok([])) == Ok(items)
  {
    assert items + [] == items;
    if rest.Ok? { assert [] + rest.value == rest.value; }
  }

  method GeneratedParts(items: seq<Value>) returns (parts: Checked<seq<Value>>)
    ensures parts == PartItems(items, {})
  {
    hide PartOf, KeyOf;
    var done: seq<Value>, keys: set<string> := [], {};
    assert items[0..] == items;
    OntoEnds([], PartItems(items, {}));
    for i := 0 to |items|
      invariant PartItems(items, {}) == Onto(done, PartItems(items[i..], keys))
    {
      assert items[i..][0] == items[i] && items[i..][1..] == items[i + 1..];
      var part := PartOf(items[i], keys);
      if part.Err? {
        return Err(part.error);
      }
      OntoNext(done, part.value, PartItems(items[i + 1..], keys + {KeyOf(items[i])}));
      keys := keys + {KeyOf(items[i])};
      done := done + [part.value];
    }
    assert items[|items|..] == [];
    OntoEnds(done, Ok([]));
    parts := Ok(done);
  }

  method References(items: seq<Value>) returns (references: Checked<seq<Value>>)
    ensures references == ReferenceItems(items)
  {
    hide ReferenceOf;
    var done: seq<Value> := [];
    assert items[0..] == items;
    OntoEnds([], ReferenceItems(items));
    for i := 0 to |items|
      invariant ReferenceItems(items) == Onto(done, ReferenceItems(items[i..]))
    {
      assert items[i..][0] == items[i] && items[i..][1..] == items[i + 1..];
      var reference := ReferenceOf(items[i]);
      if reference.Err? {
        return Err(reference.error);
      }
      OntoNext(done, reference.value, ReferenceItems(items[i + 1..]));
      done := done + [reference.value];
    }
    assert items[|items|..] == [];
    OntoEnds(done, Ok([]));
    references := Ok(done);
  }

  method Relations(v: Value, f: Field) returns (relations: Checked<Value>)
    ensures relations == RelationsOf(v, f)
  {
    hide RelationOf;
    var problem := ListProblem(v, f);
    if problem.Some? {
      return Err(problem.value);
    }
    var items := v.items;
    var done: seq<Value> := [];
    assert items[0..] == items;
    OntoEnds([], RelationItems(items, f.name));
    for i := 0 to |items|
      invariant RelationItems(items, f.name) == Onto(done, RelationItems(items[i..], f.name))
    {
      assert items[i..][0] == items[i] && items[i..][1..] == items[i + 1..];
      var relation := RelationOf(items[i], f.name);
      if relation.Err? {
        return Err(relation.error);
      }
      OntoNext(done, relation.value, RelationItems(items[i + 1..], f.name));
      done := done + [relation.value];
    }
    assert items[|items|..] == [];
    OntoEnds(done, Ok([]));
    relations := Ok(Arr(done));
  }

  method Parts(v: Value) returns (parts: Checked<Value>)
    ensures parts == PartsOf(v)
  {
    hide PartItems;
    var problem := ListProblem(v, GENERATED_PARTS);
    if problem.Some? {
      return Err(problem.value);
    }
    var items :- GeneratedParts(v.items);
    parts := Ok(Arr(items));
  }

  method Components(v: Value) returns (components: Checked<Value>)
    ensures components == ReferencesOf(v)
  {
    hide ReferenceItems;
    var problem := ListProblem(v, REFERENCE_COMPONENTS);
    if problem.Some? {
      return Err(problem.value);
    }
    var items :- References(v.items);
    components := Ok(Arr(items));
  }

  /** The checks of the ten fields in the order they are made. */
  method Normalise(f: map<string, Value>) returns (result: Checked<Value>)
    requires f.Keys == FieldNames(WORK_DESIGN)
    ensures result == Normalised(f)
  {
    TopNames();
    hide TextOf, PartsOf, ReferencesOf, RelationsOf, TextListOf, FlagOf, FieldNames;
    var texts :- TopTexts(f);
    var parts :- Parts(f["generated_parts"]);
    var references :- Components(f["reference_components"]);
    var interfaces :- Relations(f["interfaces"], INTERFACES);
    var dependencies :- Relations(f["dependencies"], DEPENDENCIES);
    var assembly :- FlagOf(f["assembly_expected"]);
    var assumptions :- TextListOf(f["assumptions"], ASSUMPTIONS);
    var questions :- TextListOf(f["unresolved_questions"], UNRESOLVED_QUESTIONS);
    result := Ok(Obj(map[
      "schema_version" := Int(1),
      "objective" := texts.objective,
      "concept_summary" := texts.concept,
      "generated_parts" := parts,
      "reference_components" := references,
      "interfaces" := interfaces,
      "dependencies" := dependencies,
      "assumptions" := assumptions,
      "unresolved_questions" := questions,
      "assembly_expected" := assembly,
      "recommendation" := texts.recommendation]));
  }

  method ValidateWorkDesign(v: Value) returns (result: Checked<Value>)
    ensures result == ValidateProposal(v)
  {
    var problem := ShapeProblem(v, WORK_DESIGN, "work_design");
    if problem.Some? {
      return Err(problem.value);
    }
    assert v.fields.Keys == FieldNames(WORK_DESIGN) by {
      assert FieldNames(WORK_DESIGN) - v.fields.Keys == {} && v.fields.Keys - FieldNames(WORK_DESIGN) == {};
    }
    hide FieldNames, ShapeProblem, Normalised;
    for i := 0 to |FORBIDDEN_IDENTITIES|
      invariant forall j | 0 <= j < i :: !ContainsKey(v, FORBIDDEN_IDENTITIES[j])
    {
      if ContainsKey(v, FORBIDDEN_IDENTITIES[i]) {
        assert SuppliesIdentity(v);
        return Err(Rejection(WorkDesignAuthorityViolation, Some("propose_work_design"), None, None));
      }
    }
    assert !SuppliesIdentity(v);
    result := Normalise(v.fields);
  }
}
