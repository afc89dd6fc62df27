/** The CAD intermediate representation and its normalisation from and to dictionaries. */
module CadIr {
  import opened Json

  datatype Ir = Ir(
    partType: string,
    partName: string,
    unit: string,
    dimensions: map<string, real>,
    features: map<string, Value>,
    outputs: seq<string>,
    checkLevel: string,
    source: map<string, Value>,
    geometryFamily: Option<string>,
    sourcePartId: Option<string>,
    sourceIntent: Option<string>,
    manufacturingContext: map<string, Value>,
    validationMetadata: map<string, Value>,
    sourceContextSummary: map<string, Value>)

  // ------------------------------------------------------------ dictionaries

  function DimensionsValue(dimensions: map<string, real>): Value {
    Obj(map k | k in dimensions :: Float(dimensions[k]))
  }

  function TextsValue(texts: seq<string>): Value {
    Arr(seq(|texts|, i requires 0 <= i < |texts| => Str(texts[i])))
  }

  function OptionalText(key: string, text: Option<string>): map<string, Value> {
    if text.None? then map[] else map[key := Str(text.value)]
  }

  function OptionalObject(key: string, fields: map<string, Value>): map<string, Value> {
    if fields == map[] then map[] else map[key := Obj(fields)]
  }

  function CoreFields(ir: Ir): map<string, Value> {
    map[
      "part_type" := Str(ir.partType),
      "part_name" := Str(if ir.partName != "" then ir.partName else ir.partType),
      "unit" := Str(ir.unit),
      "check_level" := Str(ir.checkLevel),
      "source" := Obj(ir.source),
      "dimensions" := DimensionsValue(ir.dimensions),
      "features" := Obj(ir.features),
      "outputs" := TextsValue(ir.outputs)]
  }

  function OptionalFields(ir: Ir): map<string, Value> {
    OptionalText("geometry_family", ir.geometryFamily)
    + OptionalText("source_part_id", ir.sourcePartId)
    + OptionalText("source_intent", ir.sourceIntent)
    + OptionalObject("manufacturing_context", ir.manufacturingContext)
    + OptionalObject("validation_metadata", ir.validationMetadata)
    + OptionalObject("source_context_summary", ir.sourceContextSummary)
  }

  function ToDict(ir: Ir): Value {
    Obj(CoreFields(ir) + OptionalFields(ir))
  }
}
