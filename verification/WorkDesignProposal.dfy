/** Validation and normalisation of a proposed Work Design, field by field. */
module WorkDesignProposal {
  import opened Json
  import opened Strings
  import opened Actions
  import opened WorkDesignContract

  type Checked<T> = Result<T, Rejection>

  function Wrong(issue: FieldIssue, field: Option<string>): Rejection {
    Rejection(InvalidWorkDesignContract, Some("propose_work_design"), Some(issue), field)
  }

  // ------------------------------------------------------------ single checks

  predicate FieldNameStart(c: char) {
    IsUpper(c) || IsLower(c) || c == '_'
  }

  predicate SafeFieldName(name: string) {
    && 1 <= |name| <= 120
    && FieldNameStart(name[0])
    && forall i | 1 <= i < |name| :: FieldNameStart(name[i]) || IsDigit(name[i])
  }

  predicate SafeExtra(name: string) {
    SafeFieldName(name) && !ForbiddenField(name)
  }

  /** `_validate_work_design_object_fields`: missing wins over extra, an unsafe extra field is not echoed. */
  function ShapeProblem(v: Value, shape: Shape, entry: string): Option<Rejection> {
    if !v.Obj? then Some(Wrong(InvalidShape, Some(entry)))
    else
      var missing, extra := FieldNames(shape) - v.fields.Keys, v.fields.Keys - FieldNames(shape);
      if missing != {} then Some(Wrong(Missing, Some(Least(missing))))
      else if extra != {} then
        Some(Wrong(Extra, if forall k | k in extra :: SafeExtra(k) then Some(Least(extra)) else None))
      else None
  }

  function ListProblem(v: Value, f: Field): Option<Rejection> {
    if !v.Arr? then Some(Wrong(InvalidType, Some(f.name)))
    else if !SizeFits(f, |v.items|) then Some(Wrong(InvalidValue, Some(f.name)))
    else None
  }

  /** `_required_bounded_text`: the trimmed text. */
  function BoundedText(v: Value, name: string, nonEmpty: bool, maxLength: Option<nat>): (r: Checked<Value>)
    ensures r.Ok? <==> TextFits(v, nonEmpty, maxLength)
    ensures r.Ok? ==> r.value == Trimmed(v)
  {
    if !v.Str? then Err(Wrong(InvalidType, Some(name)))
    else if !TextFits(v, nonEmpty, maxLength) then Err(Wrong(InvalidValue, Some(name)))
    else Ok(Str(Strip(v.s)))
  }

  function TextOf(v: Value, f: Field): Checked<Value> {
    BoundedText(v, f.name, f.nonEmpty, f.maxLength)
  }

  function TextItems(items: seq<Value>, f: Field): Checked<seq<Value>> {
    if items == [] then Ok([])
    else
      var first :- BoundedText(items[0], f.name, f.itemNonEmpty, f.itemMaxLength);
      var rest :- TextItems(items[1..], f);
      Ok([first] + rest)
  }

  /** `_bounded_text_list` */
  function TextListOf(v: Value, f: Field): Checked<Value> {
    var problem := ListProblem(v, f);
    if problem.Some? then Err(problem.value)
    else
      var items :- TextItems(v.items, f);
      Ok(Arr(items))
  }

  // ----------------------------------------------------------------- entries

  function PartRest(raw: map<string, Value>, key: Value): Checked<Value>
    requires raw.Keys == FieldNames(GENERATED_PART)
  {
    TableNames();
    var name :- TextOf(raw["name"], PART_NAME);
    var role :- TextOf(raw["role"], PART_ROLE);
    var interfaces :- TextListOf(raw["interfaces"], PART_INTERFACES);
    var dependencies :- TextListOf(raw["dependencies"], PART_DEPENDENCIES);
    Ok(Obj(map["key" := key, "name" := name, "role" := role,
               "interfaces" := interfaces, "dependencies" := dependencies]))
  }

  /** One generated part, given the keys already used. */
  function PartOf(raw: Value, used: set<string>): Checked<Value> {
    var problem := ShapeProblem(raw, GENERATED_PART, "generated_parts");
    if problem.Some? then Err(problem.value)
    else
      TableNames();
      var key :- TextOf(raw.fields["key"], PART_KEY);
      if key.s in used then Err(Wrong(InvalidValue, Some("key")))
      else PartRest(raw.fields, key)
  }

  function KeyOf(raw: Value): string {
    var text := EntryText(raw, "key");
    if text.Some? then text.value else ""
  }

  function PartItems(items: seq<Value>, used: set<string>): Checked<seq<Value>>
    decreases |items|
  {
    if items == [] then Ok([])
    else
      var first :- PartOf(items[0], used);
      var rest :- PartItems(items[1..], used + {KeyOf(items[0])});
      Ok([first] + rest)
  }

  function ReferenceOf(raw: Value): Checked<Value> {
    var problem := ShapeProblem(raw, REFERENCE_COMPONENT, "reference_components");
    if problem.Some? then Err(problem.value)
    else
      TableNames();
      var name :- TextOf(raw.fields["name"], PART_NAME);
      var role :- TextOf(raw.fields["role"], PART_ROLE);
      var interfaces :- TextListOf(raw.fields["interfaces"], PART_INTERFACES);
      Ok(Obj(map["name" := name, "role" := role, "interfaces" := interfaces]))
  }

  function ReferenceItems(items: seq<Value>): Checked<seq<Value>> {
    if items == [] then Ok([])
    else
      var first :- ReferenceOf(items[0]);
      var rest :- ReferenceItems(items[1..]);
      Ok([first] + rest)
  }

  function RelationOf(raw: Value, entry: string): Checked<Value> {
    var problem := ShapeProblem(raw, RELATION, entry);
    if problem.Some? then Err(problem.value)
    else
      TableNames();
      var source :- TextOf(raw.fields["from"], RELATION_FROM);
      var target :- TextOf(raw.fields["to"], RELATION_TO);
      var description :- TextOf(raw.fields["description"], RELATION_DESCRIPTION);
      Ok(Obj(map["from" := source, "to" := target, "description" := description]))
  }

  function RelationItems(items: seq<Value>, entry: string): Checked<seq<Value>> {
    if items == [] then Ok([])
    else
      var first :- RelationOf(items[0], entry);
      var rest :- RelationItems(items[1..], entry);
      Ok([first] + rest)
  }

  function PartsOf(v: Value): Checked<Value> {
    var problem := ListProblem(v, GENERATED_PARTS);
    if problem.Some? then Err(problem.value)
    else
      var items :- PartItems(v.items, {});
      Ok(Arr(items))
  }

  function ReferencesOf(v: Value): Checked<Value> {
    var problem := ListProblem(v, REFERENCE_COMPONENTS);
    if problem.Some? then Err(problem.value)
    else
      var items :- ReferenceItems(v.items);
      Ok(Arr(items))
  }

  /** `_bounded_relation_list` */
  function RelationsOf(v: Value, f: Field): Checked<Value> {
    var problem := ListProblem(v, f);
    if problem.Some? then Err(problem.value)
    else
      var items :- RelationItems(v.items, f.name);
      Ok(Arr(items))
  }

  // ------------------------------------------------------------- the proposal

  const FORBIDDEN_IDENTITIES := ["part_job_id", "run_id", "work_id", "manifest", "path", "command"]

  predicate SuppliesIdentity(v: Value) {
    exists i | 0 <= i < |FORBIDDEN_IDENTITIES| :: ContainsKey(v, FORBIDDEN_IDENTITIES[i])
  }

  function FlagOf(v: Value): Checked<Value> {
    if v.Bool? then Ok(v) else Err(Wrong(InvalidType, Some("assembly_expected")))
  }

  datatype Texts = Texts(objective: Value, concept: Value, recommendation: Value)

  function TopTexts(f: map<string, Value>): Checked<Texts>
    requires f.Keys == FieldNames(WORK_DESIGN)
  {
    TopNames();
    var objective :- TextOf(f["objective"], OBJECTIVE);
    var concept :- TextOf(f["concept_summary"], CONCEPT_SUMMARY);
    var recommendation :- TextOf(f["recommendation"], RECOMMENDATION);
    Ok(Texts(objective, concept, recommendation))
  }

  function Normalised(f: map<string, Value>): Checked<Value>
    requires f.Keys == FieldNames(WORK_DESIGN)
  {
    TopNames();
    var texts :- TopTexts(f);
    var parts :- PartsOf(f["generated_parts"]);
    var references :- ReferencesOf(f["reference_components"]);
    var interfaces :- RelationsOf(f["interfaces"], INTERFACES);
    var dependencies :- RelationsOf(f["dependencies"], DEPENDENCIES);
    var assembly :- FlagOf(f["assembly_expected"]);
    var assumptions :- TextListOf(f["assumptions"], ASSUMPTIONS);
    var questions :- TextListOf(f["unresolved_questions"], UNRESOLVED_QUESTIONS);
    Ok(Obj(map[
      "schema_version" := Int(1),
      "objective" := texts.objective,
      "concept_summary" := texts.concept,
      "generated_parts" := parts,
      "reference_components" := references,
      "interfaces" := interfaces,
      "dependencies" := dependencies,
      "assumptions" := assumptions,
      "unresolved_questions" := questions,
      "assembly_expected" := assembly,
      "recommendation" := texts.recommendation]))
  }

  /** `validate_work_design_proposal` */
  function ValidateProposal(v: Value): Checked<Value> {
    var problem := ShapeProblem(v, WORK_DESIGN, "work_design");
    if problem.Some? then Err(problem.value)
    else if SuppliesIdentity(v) then
      Err(Rejection(WorkDesignAuthorityViolation, Some("propose_work_design"), None, None))
    else Normalised(v.fields)
  }

  // --------------------------------------------------------- names of the table

  lemma TableNames()
    ensures FieldNames(GENERATED_PART) == {"key", "name", "role", "interfaces", "dependencies"}
    ensures FieldNames(REFERENCE_COMPONENT) == {"name", "role", "interfaces"}
    ensures FieldNames(RELATION) == {"from", "to", "description"}
  {
    var part, reference, relation := GENERATED_PART.fields, REFERENCE_COMPONENT.fields, RELATION.fields;
    assert part[0] == PART_KEY && part[1] == PART_NAME && part[2] == PART_ROLE && part[3] == PART_INTERFACES
        && part[4] == PART_DEPENDENCIES;
    assert reference[0] == PART_NAME && reference[1] == PART_ROLE && reference[2] == PART_INTERFACES;
    assert relation[0] == RELATION_FROM && relation[1] == RELATION_TO && relation[2] == RELATION_DESCRIPTION;
  }

  lemma TopNames()
    ensures FieldNames(WORK_DESIGN) == {
              "objective", "concept_summary", "generated_parts", "reference_components", "interfaces", "dependencies",
              "assumptions", "unresolved_questions", "assembly_expected", "recommendation"}
  {
    var f := WORK_DESIGN.fields;
    assert f[0] == OBJECTIVE && f[1] == CONCEPT_SUMMARY && f[2] == GENERATED_PARTS && f[3] == REFERENCE_COMPONENTS
        && f[4] == INTERFACES && f[5] == DEPENDENCIES && f[6] == ASSUMPTIONS && f[7] == UNRESOLVED_QUESTIONS
        && f[8] == ASSEMBLY_EXPECTED && f[9] == RECOMMENDATION;
  }
}
