/** The proposal validator accepts exactly what the contract table describes, and returns its normal form. */
module WorkDesignProposalProperties {
  import opened Json
  import opened Strings
  import opened Actions
  import opened WorkDesignContract
  import opened WorkDesignProposal

  function TrimmedItems(items: seq<Value>): seq<Value> {
    seq(|items|, i requires 0 <= i < |items| => Trimmed(items[i]))
  }

  lemma TrimmedCons(items: seq<Value>)
    requires items != []
    ensures TrimmedItems(items) == [Trimmed(items[0])] + TrimmedItems(items[1..])
  {
  }

  ghost predicate AllFit(shape: Shape, items: seq<Value>) {
    forall i | 0 <= i < |items| :: Fits(shape, items[i])
  }

  ghost predicate TextsFit(f: Field, items: seq<Value>) {
    forall i | 0 <= i < |items| :: TextFits(items[i], f.itemNonEmpty, f.itemMaxLength)
  }

  lemma ShapeProblemExactly(v: Value, shape: Shape, entry: string)
    ensures ShapeProblem(v, shape, entry).None? <==> v.Obj? && v.fields.Keys == FieldNames(shape)
  {
    if v.Obj? {
      var names, keys := FieldNames(shape), v.fields.Keys;
      assert names - keys == {} && keys - names == {} <==> keys == names;
    }
  }

  // --------------------------------------------------------------- text lists

  lemma {:induction false} TextItemsExactly(items: seq<Value>, f: Field)
    ensures TextItems(items, f).Ok? <==> TextsFit(f, items)
    ensures TextItems(items, f).Ok? ==> TextItems(items, f).value == TrimmedItems(items)
  {
    hide TextFits, Trimmed;
    if items == [] {
    } else {
      TextItemsExactly(items[1..], f);
      TrimmedCons(items);
      assert TextsFit(f, items) <==> TextFits(items[0], f.itemNonEmpty, f.itemMaxLength) && TextsFit(f, items[1..]) by {
        assert items == [items[0]] + items[1..];
        assert forall i | 0 <= i < |items[1..]| :: items[1..][i] == items[i + 1];
        assert forall i | 1 <= i < |items| :: items[i] == items[1..][i - 1];
      }
    }
  }

  predicate PlainTextList(f: Field) {
    f.valueType.ListType? && f.itemShape.None? && f.uniqueBy.None?
  }

  lemma TextListExactly(v: Value, f: Field)
    requires PlainTextList(f)
    ensures TextListOf(v, f).Ok? <==> FieldFits(f, v)
    ensures TextListOf(v, f).Ok? ==> TextListOf(v, f).value == Trimmed(v)
  {
    hide TextFits;
    if v.Arr? {
      TextItemsExactly(v.items, f);
      assert Trimmed(v).items == TrimmedItems(v.items);
      assert TextsFit(f, v.items) <==> forall i | 0 <= i < |v.items| :: ItemFits(f, v.items[i]);
    }
  }

  lemma TextExactly(v: Value, f: Field)
    requires f.valueType.TextType?
    ensures TextOf(v, f).Ok? <==> FieldFits(f, v)
    ensures TextOf(v, f).Ok? ==> TextOf(v, f).value == Trimmed(v)
  {
  }

  // ------------------------------------------------------------------ entries

  lemma PartFitsFields(v: Value)
    requires v.Obj? && v.fields.Keys == FieldNames(GENERATED_PART)
    ensures v.fields.Keys == {"key", "name", "role", "interfaces", "dependencies"}
    ensures Fits(GENERATED_PART, v) <==>
            && FieldFits(PART_KEY, v.fields["key"]) && FieldFits(PART_NAME, v.fields["name"])
            && FieldFits(PART_ROLE, v.fields["role"]) && FieldFits(PART_INTERFACES, v.fields["interfaces"])
            && FieldFits(PART_DEPENDENCIES, v.fields["dependencies"])
  {
    TableNames();
    hide FieldFits, FieldNames;
    var f := GENERATED_PART.fields;
    assert f[0] == PART_KEY && f[1] == PART_NAME && f[2] == PART_ROLE
           && f[3] == PART_INTERFACES && f[4] == PART_DEPENDENCIES;
    assert PART_KEY.name == "key" && PART_NAME.name == "name" && PART_ROLE.name == "role"
        && PART_INTERFACES.name == "interfaces" && PART_DEPENDENCIES.name == "dependencies";
  }

  lemma ReferenceFitsFields(v: Value)
    requires v.Obj? && v.fields.Keys == FieldNames(REFERENCE_COMPONENT)
    ensures v.fields.Keys == {"name", "role", "interfaces"}
    ensures Fits(REFERENCE_COMPONENT, v) <==>
            && FieldFits(PART_NAME, v.fields["name"]) && FieldFits(PART_ROLE, v.fields["role"])
            && FieldFits(PART_INTERFACES, v.fields["interfaces"])
  {
    TableNames();
    hide FieldFits, FieldNames;
    var f := REFERENCE_COMPONENT.fields;
    assert f[0] == PART_NAME && f[1] == PART_ROLE && f[2] == PART_INTERFACES;
    assert PART_NAME.name == "name" && PART_ROLE.name == "role" && PART_INTERFACES.name == "interfaces";
  }

  lemma RelationFitsFields(v: Value)
    requires v.Obj? && v.fields.Keys == FieldNames(RELATION)
    ensures v.fields.Keys == {"from", "to", "description"}
    ensures Fits(RELATION, v) <==>
            && FieldFits(RELATION_FROM, v.fields["from"]) && FieldFits(RELATION_TO, v.fields["to"])
            && FieldFits(RELATION_DESCRIPTION, v.fields["description"])
  {
    TableNames();
    hide FieldFits, FieldNames;
    var f := RELATION.fields;
    assert f[0] == RELATION_FROM && f[1] == RELATION_TO && f[2] == RELATION_DESCRIPTION;
    assert RELATION_FROM.name == "from" && RELATION_TO.name == "to" && RELATION_DESCRIPTION.name == "description";
  }

  lemma KeyText(v: Value)
    requires Fits(GENERATED_PART, v)
    ensures EntryText(v, "key") == Some(KeyOf(v))
  {
    PartFitsFields(v);
    hide Fits;
  }

  lemma PartExactly(raw: Value, used: set<string>)
    ensures PartOf(raw, used).Ok? <==> Fits(GENERATED_PART, raw) && KeyOf(raw) !in used
    ensures PartOf(raw, used).Ok? ==> PartOf(raw, used).value == Trimmed(raw)
  {
    ShapeProblemExactly(raw, GENERATED_PART, "generated_parts");
    hide ShapeProblem, FieldNames;
    if raw.Obj? && raw.fields.Keys == FieldNames(GENERATED_PART) {
      PartFitsFields(raw);
      var f := raw.fields;
      TextExactly(f["key"], PART_KEY);
      TextExactly(f["name"], PART_NAME);
      TextExactly(f["role"], PART_ROLE);
      TextListExactly(f["interfaces"], PART_INTERFACES);
      TextListExactly(f["dependencies"], PART_DEPENDENCIES);
      assert f["key"].Str? ==> KeyOf(raw) == Strip(f["key"].s) && Trimmed(f["key"]) == Str(Strip(f["key"].s));
      hide Fits, FieldFits, TextOf, TextListOf, KeyOf;
      if PartOf(raw, used).Ok? {
        assert PartOf(raw, used).value.fields == Trimmed(raw).fields;
      }
    }
  }

  lemma ReferenceExactly(raw: Value)
    ensures ReferenceOf(raw).Ok? <==> Fits(REFERENCE_COMPONENT, raw)
    ensures ReferenceOf(raw).Ok? ==> ReferenceOf(raw).value == Trimmed(raw)
  {
    ShapeProblemExactly(raw, REFERENCE_COMPONENT, "reference_components");
    hide ShapeProblem, FieldNames;
    if raw.Obj? && raw.fields.Keys == FieldNames(REFERENCE_COMPONENT) {
      ReferenceFitsFields(raw);
      var f := raw.fields;
      TextExactly(f["name"], PART_NAME);
      TextExactly(f["role"], PART_ROLE);
      TextListExactly(f["interfaces"], PART_INTERFACES);
      hide Fits, FieldFits, TextOf, TextListOf;
      if ReferenceOf(raw).Ok? {
        assert ReferenceOf(raw).value.fields == Trimmed(raw).fields;
      }
    }
  }

  lemma RelationExactly(raw: Value, entry: string)
    ensures RelationOf(raw, entry).Ok? <==> Fits(RELATION, raw)
    ensures RelationOf(raw, entry).Ok? ==> RelationOf(raw, entry).value == Trimmed(raw)
  {
    ShapeProblemExactly(raw, RELATION, entry);
    hide ShapeProblem, FieldNames;
    if raw.Obj? && raw.fields.Keys == FieldNames(RELATION) {
      RelationFitsFields(raw);
      var f := raw.fields;
      TextExactly(f["from"], RELATION_FROM);
      TextExactly(f["to"], RELATION_TO);
      TextExactly(f["description"], RELATION_DESCRIPTION);
      hide Fits, FieldFits, TextOf;
      if RelationOf(raw, entry).Ok? {
        assert RelationOf(raw, entry).value.fields == Trimmed(raw).fields;
      }
    }
  }

  // -------------------------------------------------------------- entry lists

  ghost predicate KeysDistinct(items: seq<Value>) {
    forall i, j | 0 <= i < j < |items| :: KeyOf(items[i]) != KeyOf(items[j])
  }

  ghost predicate KeysUnused(items: seq<Value>, used: set<string>) {
    forall i | 0 <= i < |items| :: KeyOf(items[i]) !in used
  }

  lemma ConsFits(shape: Shape, items: seq<Value>)
    requires items != []
    ensures AllFit(shape, items) <==> Fits(shape, items[0]) && AllFit(shape, items[1..])
  {
    hide Fits;
    assert forall i | 0 <= i < |items[1..]| :: items[1..][i] == items[i + 1];
    assert forall i | 1 <= i < |items| :: items[i] == items[1..][i - 1];
  }

  lemma ConsKeys(items: seq<Value>, used: set<string>)
    requires items != []
    ensures KeysDistinct(items) && KeysUnused(items, used)
       <==> && KeyOf(items[0]) !in used
            && KeysDistinct(items[1..]) && KeysUnused(items[1..], used + {KeyOf(items[0])})
  {
    hide KeyOf;
    var rest := items[1..];
    assert forall i | 0 <= i < |rest| :: rest[i] == items[i + 1];
    if KeysDistinct(rest) && KeysUnused(rest, used + {KeyOf(items[0])}) && KeyOf(items[0]) !in used {
      forall i | 0 <= i < |items| ensures KeyOf(items[i]) !in used {
        if i > 0 { assert items[i] == rest[i - 1]; }
      }
      forall i, j | 0 <= i < j < |items| ensures KeyOf(items[i]) != KeyOf(items[j]) {
        assert items[j] == rest[j - 1];
        if i > 0 { assert items[i] == rest[i - 1]; }
      }
    }
    if KeysDistinct(items) && KeysUnused(items, used) {
      forall i, j | 0 <= i < j < |rest| ensures KeyOf(rest[i]) != KeyOf(rest[j]) {
        assert KeyOf(items[i + 1]) != KeyOf(items[j + 1]);
      }
      forall i | 0 <= i < |rest| ensures KeyOf(rest[i]) !in used + {KeyOf(items[0])} {
        assert KeyOf(items[0]) != KeyOf(items[i + 1]);
      }
    }
  }

  lemma {:induction false} PartItemsExactly(items: seq<Value>, used: set<string>)
    ensures PartItems(items, used).Ok? <==>
            AllFit(GENERATED_PART, items) && KeysDistinct(items) && KeysUnused(items, used)
    ensures PartItems(items, used).Ok? ==> PartItems(items, used).value == TrimmedItems(items)
    decreases |items|
  {
    if items == [] {
    } else {
      PartExactly(items[0], used);
      PartItemsExactly(items[1..], used + {KeyOf(items[0])});
      ConsFits(GENERATED_PART, items);
      ConsKeys(items, used);
      TrimmedCons(items);
    }
  }

  lemma {:induction false} ReferenceItemsExactly(items: seq<Value>)
    ensures ReferenceItems(items).Ok? <==> AllFit(REFERENCE_COMPONENT, items)
    ensures ReferenceItems(items).Ok? ==> ReferenceItems(items).value == TrimmedItems(items)
  {
    hide Fits, ReferenceOf, Trimmed;
    if items == [] {
    } else {
      ReferenceExactly(items[0]);
      ReferenceItemsExactly(items[1..]);
      ConsFits(REFERENCE_COMPONENT, items);
      TrimmedCons(items);
    }
  }

  lemma {:induction false} RelationItemsExactly(items: seq<Value>, entry: string)
    ensures RelationItems(items, entry).Ok? <==> AllFit(RELATION, items)
    ensures RelationItems(items, entry).Ok? ==> RelationItems(items, entry).value == TrimmedItems(items)
  {
    hide Fits, RelationOf, Trimmed;
    if items == [] {
    } else {
      RelationExactly(items[0], entry);
      RelationItemsExactly(items[1..], entry);
      ConsFits(RELATION, items);
      TrimmedCons(items);
    }
  }

  /** Distinct trimmed keys, on entries that fit. */
  lemma DistinctByKey(items: seq<Value>)
    requires AllFit(GENERATED_PART, items)
    ensures DistinctBy(Some("key"), items) <==> KeysDistinct(items)
  {
    hide Fits, KeyOf, EntryText;
    forall i | 0 <= i < |items| ensures EntryText(items[i], "key") == Some(KeyOf(items[i])) { KeyText(items[i]); }
  }

  lemma ListFits(f: Field, v: Value, shape: Shape)
    requires f.valueType.ListType? && f.itemShape == Some(shape)
    ensures FieldFits(f, v) <==>
            v.Arr? && SizeFits(f, |v.items|) && AllFit(shape, v.items) && DistinctBy(f.uniqueBy, v.items)
  {
    hide Fits, SizeFits, DistinctBy;
    if v.Arr? {
      assert AllFit(shape, v.items) <==> forall i | 0 <= i < |v.items| :: ItemFits(f, v.items[i]);
    }
  }

  lemma PartsExactly(v: Value)
    ensures PartsOf(v).Ok? <==> FieldFits(GENERATED_PARTS, v)
    ensures PartsOf(v).Ok? ==> PartsOf(v).value == Trimmed(v)
  {
    ListFits(GENERATED_PARTS, v, GENERATED_PART);
    hide Fits, FieldFits, KeyOf;
    if v.Arr? {
      PartItemsExactly(v.items, {});
      assert Trimmed(v).items == TrimmedItems(v.items);
      if AllFit(GENERATED_PART, v.items) { DistinctByKey(v.items); }
    }
  }

  lemma ReferencesExactly(v: Value)
    ensures ReferencesOf(v).Ok? <==> FieldFits(REFERENCE_COMPONENTS, v)
    ensures ReferencesOf(v).Ok? ==> ReferencesOf(v).value == Trimmed(v)
  {
    ListFits(REFERENCE_COMPONENTS, v, REFERENCE_COMPONENT);
    hide Fits, FieldFits;
    if v.Arr? {
      ReferenceItemsExactly(v.items);
      assert Trimmed(v).items == TrimmedItems(v.items);
    }
  }

  lemma RelationsExactly(v: Value, f: Field)
    requires f.valueType.ListType? && f.itemShape == Some(RELATION) && f.uniqueBy.None?
    ensures RelationsOf(v, f).Ok? <==> FieldFits(f, v)
    ensures RelationsOf(v, f).Ok? ==> RelationsOf(v, f).value == Trimmed(v)
  {
    ListFits(f, v, RELATION);
    hide Fits, FieldFits;
    if v.Arr? {
      RelationItemsExactly(v.items, f.name);
      assert Trimmed(v).items == TrimmedItems(v.items);
    }
  }

  // ------------------------------------------------------------- the proposal

  lemma TopFitsFields(v: Value)
    requires v.Obj? && v.fields.Keys == FieldNames(WORK_DESIGN)
    ensures v.fields.Keys == {
              "objective", "concept_summary", "generated_parts", "reference_components", "interfaces", "dependencies",
              "assumptions", "unresolved_questions", "assembly_expected", "recommendation"}
    ensures Fits(WORK_DESIGN, v) <==>
            && FieldFits(OBJECTIVE, v.fields["objective"]) && FieldFits(CONCEPT_SUMMARY, v.fields["concept_summary"])
            && FieldFits(GENERATED_PARTS, v.fields["generated_parts"])
            && FieldFits(REFERENCE_COMPONENTS, v.fields["reference_components"])
            && FieldFits(INTERFACES, v.fields["interfaces"]) && FieldFits(DEPENDENCIES, v.fields["dependencies"])
            && FieldFits(ASSUMPTIONS, v.fields["assumptions"])
            && FieldFits(UNRESOLVED_QUESTIONS, v.fields["unresolved_questions"])
            && FieldFits(ASSEMBLY_EXPECTED, v.fields["assembly_expected"])
            && FieldFits(RECOMMENDATION, v.fields["recommendation"])
  {
    TopNames();
    hide FieldFits, FieldNames;
    var f := WORK_DESIGN.fields;
    assert f[0] == OBJECTIVE && f[1] == CONCEPT_SUMMARY && f[2] == GENERATED_PARTS && f[3] == REFERENCE_COMPONENTS
        && f[4] == INTERFACES && f[5] == DEPENDENCIES && f[6] == ASSUMPTIONS && f[7] == UNRESOLVED_QUESTIONS
        && f[8] == ASSEMBLY_EXPECTED && f[9] == RECOMMENDATION;
    assert f[0].name == "objective" && f[1].name == "concept_summary" && f[2].name == "generated_parts"
        && f[3].name == "reference_components" && f[4].name == "interfaces" && f[5].name == "dependencies"
        && f[6].name == "assumptions" && f[7].name == "unresolved_questions" && f[8].name == "assembly_expected"
        && f[9].name == "recommendation";
  }

  lemma FieldsExactly(v: Value)
    requires v.Obj? && v.fields.Keys == FieldNames(WORK_DESIGN)
    ensures Normalised(v.fields).Ok? <==> Fits(WORK_DESIGN, v)
  {
    TopFitsFields(v);
    var f := v.fields;
    TextExactly(f["objective"], OBJECTIVE);
    TextExactly(f["concept_summary"], CONCEPT_SUMMARY);
    TextExactly(f["recommendation"], RECOMMENDATION);
    PartsExactly(f["generated_parts"]);
    ReferencesExactly(f["reference_components"]);
    RelationsExactly(f["interfaces"], INTERFACES);
    RelationsExactly(f["dependencies"], DEPENDENCIES);
    TextListExactly(f["assumptions"], ASSUMPTIONS);
    TextListExactly(f["unresolved_questions"], UNRESOLVED_QUESTIONS);
    assert FlagOf(f["assembly_expected"]).Ok? <==> FieldFits(ASSEMBLY_EXPECTED, f["assembly_expected"]);
  }

  const TOP_NAMES := {
    "objective", "concept_summary", "generated_parts", "reference_components", "interfaces", "dependencies",
    "assumptions", "unresolved_questions", "assembly_expected", "recommendation"}

  function Assembled(t: map<string, Value>): map<string, Value>
    requires t.Keys == TOP_NAMES
  {
    map[
      "schema_version" := Int(1),
      "objective" := t["objective"],
      "concept_summary" := t["concept_summary"],
      "generated_parts" := t["generated_parts"],
      "reference_components" := t["reference_components"],
      "interfaces" := t["interfaces"],
      "dependencies" := t["dependencies"],
      "assumptions" := t["assumptions"],
      "unresolved_questions" := t["unresolved_questions"],
      "assembly_expected" := t["assembly_expected"],
      "recommendation" := t["recommendation"]]
  }

  lemma AssembledIsVersioned(t: map<string, Value>)
    requires t.Keys == TOP_NAMES
    ensures Assembled(t) == t["schema_version" := Int(1)]
  {
    var all := Assembled(t);
    assert "schema_version" !in TOP_NAMES;
    assert all.Keys == TOP_NAMES + {"schema_version"};
    forall k | k in TOP_NAMES ensures all[k] == t[k] {
    }
  }

  ghost predicate Is(checked: Checked<Value>, expected: Value) {
    checked.Ok? ==> checked.value == expected
  }

  /** Each field's own check answers with the trimmed field. */
  ghost predicate FieldwiseTrimmed(f: map<string, Value>, t: map<string, Value>)
    requires f.Keys == TOP_NAMES && t.Keys == TOP_NAMES
  {
    && Is(TextOf(f["objective"], OBJECTIVE), t["objective"])
    && Is(TextOf(f["concept_summary"], CONCEPT_SUMMARY), t["concept_summary"])
    && Is(TextOf(f["recommendation"], RECOMMENDATION), t["recommendation"])
    && Is(PartsOf(f["generated_parts"]), t["generated_parts"])
    && Is(ReferencesOf(f["reference_components"]), t["reference_components"])
    && Is(RelationsOf(f["interfaces"], INTERFACES), t["interfaces"])
    && Is(RelationsOf(f["dependencies"], DEPENDENCIES), t["dependencies"])
    && Is(TextListOf(f["assumptions"], ASSUMPTIONS), t["assumptions"])
    && Is(TextListOf(f["unresolved_questions"], UNRESOLVED_QUESTIONS), t["unresolved_questions"])
    && Is(FlagOf(f["assembly_expected"]), t["assembly_expected"])
  }

  lemma FieldsTrimmed(f: map<string, Value>, t: map<string, Value>)
    requires f.Keys == TOP_NAMES && t.Keys == TOP_NAMES && forall k | k in f :: t[k] == Trimmed(f[k])
    ensures FieldwiseTrimmed(f, t)
  {
    TextExactly(f["objective"], OBJECTIVE);
    TextExactly(f["concept_summary"], CONCEPT_SUMMARY);
    TextExactly(f["recommendation"], RECOMMENDATION);
    PartsExactly(f["generated_parts"]);
    ReferencesExactly(f["reference_components"]);
    RelationsExactly(f["interfaces"], INTERFACES);
    RelationsExactly(f["dependencies"], DEPENDENCIES);
    TextListExactly(f["assumptions"], ASSUMPTIONS);
    TextListExactly(f["unresolved_questions"], UNRESOLVED_QUESTIONS);
    assert Is(FlagOf(f["assembly_expected"]), Trimmed(f["assembly_expected"]));
  }

  lemma NormalisedIsAssembled(f: map<string, Value>, t: map<string, Value>)
    requires f.Keys == FieldNames(WORK_DESIGN) && f.Keys == TOP_NAMES && t.Keys == TOP_NAMES
    requires FieldwiseTrimmed(f, t) && Normalised(f).Ok?
    ensures Normalised(f).value == Obj(Assembled(t))
  {
  }

  lemma ValueIsTrimmed(v: Value)
    requires v.Obj? && v.fields.Keys == FieldNames(WORK_DESIGN) && Normalised(v.fields).Ok?
    ensures Normalised(v.fields).value == Obj(Trimmed(v).fields["schema_version" := Int(1)])
  {
    TopNames();
    var f, t := v.fields, Trimmed(v).fields;
    assert f.Keys == TOP_NAMES && t.Keys == TOP_NAMES;
    assert forall k | k in f :: t[k] == Trimmed(f[k]);
    hide *;
    FieldsTrimmed(f, t);
    AssembledIsVersioned(t);
    NormalisedIsAssembled(f, t);
  }

  lemma IdentityNamesFree()
    ensures forall i | 0 <= i < |FORBIDDEN_IDENTITIES| :: NameFree(WORK_DESIGN, FORBIDDEN_IDENTITIES[i])
  {
    forall i | 0 <= i < |FORBIDDEN_IDENTITIES| ensures NameFree(WORK_DESIGN, FORBIDDEN_IDENTITIES[i]) {
      var key := FORBIDDEN_IDENTITIES[i];
      assert key == "part_job_id" || key == "run_id" || key == "work_id" || key == "manifest" || key == "path"
             || key == "command";
      assert NameFree(RELATION, key) && NameFree(GENERATED_PART, key) && NameFree(REFERENCE_COMPONENT, key);
    }
  }

  /** A fitting proposal never supplies a product identity, so the scan for one changes no verdict. */
  lemma AuthorityScanRefusesOnlyMisfits(v: Value)
    requires SuppliesIdentity(v)
    ensures !Fits(WORK_DESIGN, v)
    ensures ValidateProposal(v).Err?
    ensures ValidateProposal(v).error.reason == WorkDesignAuthorityViolation
       <==> v.Obj? && v.fields.Keys == FieldNames(WORK_DESIGN)
  {
    if Fits(WORK_DESIGN, v) {
      IdentityNamesFree();
      var i :| 0 <= i < |FORBIDDEN_IDENTITIES| && ContainsKey(v, FORBIDDEN_IDENTITIES[i]);
      FittingHoldsOnlyTableNames(WORK_DESIGN, v, FORBIDDEN_IDENTITIES[i]);
    }
    ShapeProblemExactly(v, WORK_DESIGN, "work_design");
    hide Normalised;
  }

  /** The validator accepts exactly what the table describes, and answers with its trimmed form. */
  lemma AcceptedExactly(v: Value)
    ensures ValidateProposal(v).Ok? <==> Fits(WORK_DESIGN, v)
    ensures ValidateProposal(v).Ok? ==> ValidateProposal(v).value == Obj(Trimmed(v).fields["schema_version" := Int(1)])
  {
    if SuppliesIdentity(v) {
      AuthorityScanRefusesOnlyMisfits(v);
    } else {
      ShapeProblemExactly(v, WORK_DESIGN, "work_design");
      if v.Obj? && v.fields.Keys == FieldNames(WORK_DESIGN) {
        FieldsExactly(v);
        if Normalised(v.fields).Ok? { ValueIsTrimmed(v); }
      } else {
        assert !Fits(WORK_DESIGN, v);
      }
    }
  }

  lemma DropVersion(t: map<string, Value>)
    requires t.Keys == TOP_NAMES
    ensures t["schema_version" := Int(1)] - {"schema_version"} == t
  {
    assert "schema_version" !in TOP_NAMES;
    assert "schema_version" !in t;
  }

  lemma WithoutVersion(v: Value)
    requires Fits(WORK_DESIGN, v)
    ensures Trimmed(v).Obj?
    ensures Trimmed(v).fields["schema_version" := Int(1)] - {"schema_version"} == Trimmed(v).fields
  {
    TopNames();
    assert Trimmed(v).fields.Keys == v.fields.Keys == FieldNames(WORK_DESIGN) == TOP_NAMES;
    hide Trimmed, Fits, FieldNames;
    DropVersion(Trimmed(v).fields);
  }

  /** The result without its version is accepted again, unchanged. */
  lemma ResultIsNormalForm(v: Value)
    requires ValidateProposal(v).Ok?
    ensures ValidateProposal(v).value.Obj?
    ensures var result := ValidateProposal(v).value;
            ValidateProposal(Obj(result.fields - {"schema_version"})) == Ok(result)
  {
    hide ValidateProposal, Fits, Trimmed;
    AcceptedExactly(v);
    WithoutVersion(v);
    TrimmedFits(WORK_DESIGN, v);
    TrimmedTwice(v);
    AcceptedExactly(Trimmed(v));
  }

  /** Every generated part of a result is itself a fitting part, and no two share a key. */
  lemma GeneratedPartsDistinct(v: Value)
    requires ValidateProposal(v).Ok?
    ensures var result := ValidateProposal(v).value;
            && result.Obj? && "generated_parts" in result.fields && result.fields["generated_parts"].Arr?
            && var parts := result.fields["generated_parts"].items;
               && 1 <= |parts| <= 12 && AllFit(GENERATED_PART, parts) && KeysDistinct(parts)
  {
    AcceptedExactly(v);
    TopNames();
    TrimmedFits(WORK_DESIGN, v);
    var again := Trimmed(v);
    assert again.fields.Keys == FieldNames(WORK_DESIGN);
    TopFitsFields(again);
    var parts := again.fields["generated_parts"];
    ListFits(GENERATED_PARTS, parts, GENERATED_PART);
    DistinctByKey(parts.items);
  }
}
