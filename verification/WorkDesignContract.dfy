/** The declarative Work Design contract table and what it means for a value to fit it. */
module WorkDesignContract {
  import opened Json
  import opened Strings

  datatype ValueType = TextType | BooleanType | ListType | ObjectType

  datatype Field = Field(
    name: string, valueType: ValueType, nonEmpty: bool, maxLength: Option<nat>,
    minItems: Option<nat>, maxItems: Option<nat>, itemType: Option<ValueType>, itemShape: Option<Shape>,
    itemNonEmpty: bool, itemMaxLength: Option<nat>, uniqueBy: Option<string>)

  datatype Shape = Shape(fields: seq<Field>)

  function TextField(name: string, maxLength: nat): Field {
    Field(name, TextType, true, Some(maxLength), None, None, None, None, false, None, None)
  }

  function TextList(name: string, maxItems: nat, itemMaxLength: nat): Field {
    Field(name, ListType, false, None, Some(0), Some(maxItems), Some(TextType), None, true, Some(itemMaxLength), None)
  }

  function ObjectList(name: string, minItems: nat, maxItems: nat, shape: Shape, uniqueBy: Option<string>): Field {
    Field(name, ListType, false, None, Some(minItems), Some(maxItems), Some(ObjectType), Some(shape), false, None,
          uniqueBy)
  }

  // ---------------------------------------------------------------- the table

  const RELATION_FROM := TextField("from", 200)
  const RELATION_TO := TextField("to", 200)
  const RELATION_DESCRIPTION := TextField("description", 1000)

  const RELATION := Shape([RELATION_FROM, RELATION_TO, RELATION_DESCRIPTION])

  const PART_KEY := TextField("key", 120)
  const PART_NAME := TextField("name", 200)
  const PART_ROLE := TextField("role", 1000)
  const PART_INTERFACES := TextList("interfaces", 24, 1000)
  const PART_DEPENDENCIES := TextList("dependencies", 12, 500)

  const GENERATED_PART := Shape([PART_KEY, PART_NAME, PART_ROLE, PART_INTERFACES, PART_DEPENDENCIES])

  const REFERENCE_COMPONENT := Shape([PART_NAME, PART_ROLE, PART_INTERFACES])

  const OBJECTIVE := TextField("objective", 2000)
  const CONCEPT_SUMMARY := TextField("concept_summary", 4000)
  const GENERATED_PARTS := ObjectList("generated_parts", 1, 12, GENERATED_PART, Some("key"))
  const REFERENCE_COMPONENTS := ObjectList("reference_components", 0, 24, REFERENCE_COMPONENT, None)
  const INTERFACES := ObjectList("interfaces", 0, 48, RELATION, None)
  const DEPENDENCIES := ObjectList("dependencies", 0, 24, RELATION, None)
  const ASSUMPTIONS := TextList("assumptions", 24, 1000)
  const UNRESOLVED_QUESTIONS := TextList("unresolved_questions", 12, 1000)
  const ASSEMBLY_EXPECTED :=
    Field("assembly_expected", BooleanType, false, None, None, None, None, None, false, None, None)
  const RECOMMENDATION := TextField("recommendation", 1000)

  const WORK_DESIGN := Shape([
    OBJECTIVE, CONCEPT_SUMMARY, GENERATED_PARTS, REFERENCE_COMPONENTS, INTERFACES, DEPENDENCIES,
    ASSUMPTIONS, UNRESOLVED_QUESTIONS, ASSEMBLY_EXPECTED, RECOMMENDATION])

  function FieldNames(shape: Shape): set<string> {
    set i | 0 <= i < |shape.fields| :: shape.fields[i].name
  }

  // ------------------------------------------------------- fitting the table

  predicate AtMost(n: nat, limit: Option<nat>) {
    limit.None? || n <= limit.value
  }

  function OrZero(n: Option<nat>): nat {
    if n.Some? then n.value else 0
  }

  /** A text fits by its trimmed form. */
  predicate TextFits(v: Value, nonEmpty: bool, maxLength: Option<nat>) {
    v.Str? && (nonEmpty ==> Strip(v.s) != "") && AtMost(|Strip(v.s)|, maxLength)
  }

  predicate SizeFits(f: Field, n: nat) {
    OrZero(f.minItems) <= n && AtMost(n, f.maxItems)
  }

  /** The trimmed text of one field of an entry. */
  function EntryText(v: Value, key: string): Option<string> {
    if v.Obj? && key in v.fields && v.fields[key].Str? then Some(Strip(v.fields[key].s)) else None
  }

  predicate DistinctBy(key: Option<string>, items: seq<Value>) {
    key.Some? ==>
      forall i, j | 0 <= i < j < |items| :: EntryText(items[i], key.value) != EntryText(items[j], key.value)
  }

  /** A value has exactly the fields of the shape, and each field fits. */
  predicate Fits(shape: Shape, v: Value)
    decreases shape, 1, 0
  {
    && v.Obj?
    && v.fields.Keys == FieldNames(shape)
    && forall i | 0 <= i < |shape.fields| :: FieldFits(shape.fields[i], v.fields[shape.fields[i].name])
  }

  predicate FieldFits(f: Field, v: Value)
    decreases f, 2, 0
  {
    match f.valueType
    case TextType => TextFits(v, f.nonEmpty, f.maxLength)
    case BooleanType => v.Bool?
    case ListType =>
      && v.Arr? && SizeFits(f, |v.items|)
      && (forall i | 0 <= i < |v.items| :: ItemFits(f, v.items[i]))
      && DistinctBy(f.uniqueBy, v.items)
    case ObjectType => false
  }

  predicate ItemFits(f: Field, v: Value)
    decreases f, 1, 0
  {
    if f.itemShape.Some? then Fits(f.itemShape.value, v) else TextFits(v, f.itemNonEmpty, f.itemMaxLength)
  }

  // ------------------------------------------------------------- normal forms

  /** Every text leaf trimmed. */
  function Trimmed(v: Value): Value {
    match v
    case Str(s) => Str(Strip(s))
    case Arr(items) => Arr(seq(|items|, i requires 0 <= i < |items| => Trimmed(items[i])))
    case Obj(fields) => Obj(map k | k in fields :: Trimmed(fields[k]))
    case _ => v
  }

  lemma {:induction false} TrimmedTwice(v: Value)
    ensures Trimmed(Trimmed(v)) == Trimmed(v)
  {
    match v
    case Str(s) => StripIdempotent(s);
    case Arr(items) =>
      forall i | 0 <= i < |items| ensures Trimmed(Trimmed(items[i])) == Trimmed(items[i]) { TrimmedTwice(items[i]); }
      assert Trimmed(Trimmed(v)).items == Trimmed(v).items;
    case Obj(fields) =>
      forall k | k in fields ensures Trimmed(Trimmed(fields[k])) == Trimmed(fields[k]) { TrimmedTwice(fields[k]); }
      assert Trimmed(Trimmed(v)).fields == Trimmed(v).fields;
    case _ =>
  }

  lemma TrimmedTextFits(v: Value, nonEmpty: bool, maxLength: Option<nat>)
    ensures TextFits(Trimmed(v), nonEmpty, maxLength) <==> TextFits(v, nonEmpty, maxLength)
  {
    if v.Str? { StripIdempotent(v.s); }
  }

  lemma TrimmedEntryText(v: Value, key: string)
    ensures EntryText(Trimmed(v), key) == EntryText(v, key)
  {
    if v.Obj? && key in v.fields {
      assert Trimmed(v).fields[key] == Trimmed(v.fields[key]);
      if v.fields[key].Str? { StripIdempotent(v.fields[key].s); }
    }
  }

  /** Trimming decides nothing: a value fits exactly when its normal form does. */
  lemma {:induction false} TrimmedFits(shape: Shape, v: Value)
    ensures Fits(shape, Trimmed(v)) <==> Fits(shape, v)
    decreases shape, 1, 0
  {
    if v.Obj? {
      assert Trimmed(v).fields.Keys == v.fields.Keys;
      if v.fields.Keys == FieldNames(shape) {
        forall i | 0 <= i < |shape.fields|
          ensures FieldFits(shape.fields[i], Trimmed(v).fields[shape.fields[i].name])
             <==> FieldFits(shape.fields[i], v.fields[shape.fields[i].name])
        {
          var name := shape.fields[i].name;
          assert name in FieldNames(shape);
          assert Trimmed(v).fields[name] == Trimmed(v.fields[name]);
          TrimmedFieldFits(shape.fields[i], v.fields[name]);
        }
      }
    }
  }

  lemma {:induction false} TrimmedFieldFits(f: Field, v: Value)
    ensures FieldFits(f, Trimmed(v)) <==> FieldFits(f, v)
    decreases f, 2, 0
  {
    TrimmedTextFits(v, f.nonEmpty, f.maxLength);
    if v.Arr? {
      var items := v.items;
      forall i | 0 <= i < |items| ensures ItemFits(f, Trimmed(items[i])) <==> ItemFits(f, items[i]) {
        TrimmedItemFits(f, items[i]);
      }
      if f.uniqueBy.Some? {
        forall i | 0 <= i < |items|
          ensures EntryText(Trimmed(items[i]), f.uniqueBy.value) == EntryText(items[i], f.uniqueBy.value)
        {
          TrimmedEntryText(items[i], f.uniqueBy.value);
        }
      }
      assert forall i | 0 <= i < |items| :: Trimmed(v).items[i] == Trimmed(items[i]);
    }
  }

  lemma {:induction false} TrimmedItemFits(f: Field, v: Value)
    ensures ItemFits(f, Trimmed(v)) <==> ItemFits(f, v)
    decreases f, 1, 0
  {
    if f.itemShape.Some? {
      TrimmedFits(f.itemShape.value, v);
    } else {
      TrimmedTextFits(v, f.itemNonEmpty, f.itemMaxLength);
    }
  }

  // -------------------------------------------- names a fitting value can have

  predicate ContainsKey(v: Value, key: string) {
    match v
    case Obj(fields) => key in fields || exists k | k in fields :: ContainsKey(fields[k], key)
    case Arr(items) => exists i | 0 <= i < |items| :: ContainsKey(items[i], key)
    case _ => false
  }

  /** No field of the shape, at any level, has the name. */
  predicate NameFree(shape: Shape, key: string) {
    forall i | 0 <= i < |shape.fields| ::
      && shape.fields[i].name != key
      && (shape.fields[i].itemShape.Some? ==> NameFree(shape.fields[i].itemShape.value, key))
  }

  /** A fitting value holds no name that the table does not. */
  lemma {:induction false} FittingHoldsOnlyTableNames(shape: Shape, v: Value, key: string)
    requires Fits(shape, v) && NameFree(shape, key)
    ensures !ContainsKey(v, key)
    decreases shape
  {
    forall k | k in v.fields ensures k != key && !ContainsKey(v.fields[k], key) {
      assert k in FieldNames(shape);
      var i :| 0 <= i < |shape.fields| && shape.fields[i].name == k;
      var f, w := shape.fields[i], v.fields[k];
      assert FieldFits(f, w);
      if f.valueType.ListType? && f.itemShape.Some? {
        forall j | 0 <= j < |w.items| ensures !ContainsKey(w.items[j], key) {
          assert ItemFits(f, w.items[j]);
          FittingHoldsOnlyTableNames(f.itemShape.value, w.items[j], key);
        }
      } else if f.valueType.ListType? {
        assert forall j | 0 <= j < |w.items| :: ItemFits(f, w.items[j]) && w.items[j].Str?;
      }
    }
  }
}
