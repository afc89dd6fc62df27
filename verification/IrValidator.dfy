/** Validation of CAD IR values, with the report it builds step by step. */
module IrValidator {
  import opened Json
  import opened CadIr

  // ------------------------------------------------------------------ tables

  const PART_TYPES: set<string> := {
    "mounting_plate", "spacer", "simple_bracket", "wall_bracket",
    "circular_button", "enclosure_base", "enclosure_lid", "link_like_part"}

  const OUTPUTS: set<string> := {"step", "stl"}

  /** Required dimensions of a part type in sorted order; none for an unknown type. */
  function RequiredDimensions(partType: string): seq<string> {
    if partType == "mounting_plate" || partType == "enclosure_lid" then ["length", "thickness", "width"]
    else if partType == "spacer" then ["inner_diameter", "outer_diameter", "thickness"]
    else if partType == "simple_bracket" then ["base_length", "base_width", "height", "thickness"]
    else if partType == "wall_bracket" then ["base_depth", "base_width", "material_thickness", "wall_height"]
    else if partType == "circular_button" then ["body_diameter", "body_height", "button_diameter", "button_height"]
    else if partType == "enclosure_base" then ["outer_height", "outer_length", "outer_width", "wall_thickness"]
    else if partType == "link_like_part" then ["hole_center_distance", "hole_diameter", "length", "thickness", "width"]
    else []
  }

  function UnverifiedFeatures(partType: string): set<string> {
    if partType == "simple_bracket" then {"fillet"}
    else if partType == "wall_bracket" then {"base_holes", "wall_hole", "fillet"}
    else if partType == "circular_button" then
      {"switch_pocket", "actuator_post", "contact_slots", "wire_exit", "anti_slip_feet", "edge_finish"}
    else if partType == "enclosure_base" then {"bosses", "bottom_cutout", "fillet"}
    else {}
  }

  function SupportedFeatures(partType: string): set<string> {
    UnverifiedFeatures(partType)
    + (if partType == "mounting_plate" then {"holes", "mounting_holes", "chamfer"}
       else if partType == "simple_bracket" then {"holes", "base_holes"}
       else if partType == "enclosure_lid" then {"holes", "chamfer"}
       else {})
  }

  const HOLE_FEATURES: set<string> := {"holes", "mounting_holes", "base_holes"}

  // ---------------------------------------------------- what a valid IR means

  predicate IsNumber(v: Value) { v.Int? || v.Float? }

  predicate IsXyPoint(v: Value) {
    v.Arr? && |v.items| == 2 && IsNumber(v.items[0]) && IsNumber(v.items[1])
  }

  predicate PositionsOk(positions: Option<Value>, pattern: Option<Value>, count: Option<Value>) {
    || positions.None?
    || positions.value == Null
    || positions.value == Str("corner_4")
    || (pattern == Some(Str("corner")) && count in {Some(Int(4)), Some(Float(4.0))})
    || (positions.value.Arr? && forall i | 0 <= i < |positions.value.items| :: IsXyPoint(positions.value.items[i]))
  }

  /** The first hole of a list stands for the list; a hole needs no positions, or known ones. */
  predicate HoleSemanticsOk(v: Value) {
    var hole := if v.Arr? && v.items != [] then v.items[0] else v;
    hole.Obj?
    && PositionsOk(Get(hole.fields, "positions"), Get(hole.fields, "pattern"), Get(hole.fields, "count"))
  }

  predicate FeatureOk(partType: string, feature: string, v: Value) {
    feature in SupportedFeatures(partType) && (feature in HOLE_FEATURES ==> HoleSemanticsOk(v))
  }

  predicate DimensionOk(dimensions: map<string, real>, name: string) {
    name in dimensions && dimensions[name] > 0.0
  }

  datatype LinkRule = HoleNarrowerThanPart | HolesWithinLength | EdgeMargin | ConceptThickness

  const LINK_DIMENSIONS: seq<string> := ["length", "width", "thickness", "hole_center_distance", "hole_diameter"]

  predicate HasLinkDimensions(dimensions: map<string, real>) {
    forall name | name in LINK_DIMENSIONS :: name in dimensions
  }

  predicate LinkRuleHolds(rule: LinkRule, dimensions: map<string, real>)
    requires HasLinkDimensions(dimensions)
  {
    assert forall i | 0 <= i < 5 :: LINK_DIMENSIONS[i] in LINK_DIMENSIONS;
    var diameter, distance := dimensions["hole_diameter"], dimensions["hole_center_distance"];
    match rule
    case HoleNarrowerThanPart => diameter < dimensions["width"]
    case HolesWithinLength => distance < dimensions["length"]
    case EdgeMargin =>
      var margin := (dimensions["length"] - distance - diameter) / 2.0;
      margin >= 2.0 && margin >= diameter * 0.5
    case ConceptThickness => dimensions["thickness"] >= 3.0
  }

  predicate LinkContractOk(ir: Ir) {
    && ir.geometryFamily == Some("elongated_plate_with_end_holes")
    && (HasLinkDimensions(ir.dimensions) ==>
          && LinkRuleHolds(HoleNarrowerThanPart, ir.dimensions)
          && LinkRuleHolds(HolesWithinLength, ir.dimensions)
          && LinkRuleHolds(EdgeMargin, ir.dimensions)
          && LinkRuleHolds(ConceptThickness, ir.dimensions))
  }

  predicate ValidIr(ir: Ir) {
    && ir.unit == "mm"
    && ir.partType in PART_TYPES
    && (forall name | name in RequiredDimensions(ir.partType) :: DimensionOk(ir.dimensions, name))
    && (forall output | output in ir.outputs :: output in OUTPUTS)
    && (forall feature | feature in ir.features :: FeatureOk(ir.partType, feature, ir.features[feature]))
    && (ir.partType == "link_like_part" ==> LinkContractOk(ir))
  }

  // --------------------------------------------------------------- the report

  datatype Topic =
    | UnitMm
    | PartTypeSupported
    | RequiredDimension(name: string)
    | OutputSupported(output: string)
    | FeatureSupported(feature: string)
    | FeatureSemantics(feature: string)
    | GeometryFamily
    | LinkLike(rule: LinkRule)

  datatype Check = Check(topic: Topic, pass: bool)

  datatype Issue =
    | UnsupportedUnit
    | UnsupportedPartType
    | MissingDimension(name: string)
    | InvalidDimension(name: string)
    | UnsupportedOutput(output: string)
    | UnsupportedFeature(feature: string)
    | UnsupportedSemantics(feature: string)
    | UnsupportedGeometryFamily
    | InvalidLinkGeometry(rule: LinkRule)
    | FeatureUnverified(feature: string)

  /** The error a failed check is reported as. */
  predicate Explains(issue: Issue, topic: Topic) {
    match topic
    case UnitMm => issue == UnsupportedUnit
    case PartTypeSupported => issue == UnsupportedPartType
    case RequiredDimension(name) => issue == MissingDimension(name) || issue == InvalidDimension(name)
    case OutputSupported(output) => issue == UnsupportedOutput(output)
    case FeatureSupported(feature) => issue == UnsupportedFeature(feature)
    case FeatureSemantics(feature) => issue == UnsupportedSemantics(feature)
    case GeometryFamily => issue == UnsupportedGeometryFamily
    case LinkLike(rule) => issue == InvalidLinkGeometry(rule)
  }

  function Failures(checks: seq<Check>): seq<Topic> {
    if checks == [] then []
    else
      var last := checks[|checks| - 1];
      Failures(checks[..|checks| - 1]) + if last.pass then [] else [last.topic]
  }

  /** Failed checks and errors correspond one to one, in order. */
  ghost predicate PairedLists(checks: seq<Check>, errors: seq<Issue>) {
    var failures := Failures(checks);
    |failures| == |errors| && forall i | 0 <= i < |errors| :: Explains(errors[i], failures[i])
  }

  ghost predicate AllPass(checks: seq<Check>) {
    forall i | 0 <= i < |checks| :: checks[i].pass
  }

  lemma {:induction false} NoFailuresIffAllPass(checks: seq<Check>)
    ensures Failures(checks) == [] <==> AllPass(checks)
  {
    if checks != [] {
      var front := checks[..|checks| - 1];
      NoFailuresIffAllPass(front);
      assert AllPass(checks) <==> AllPass(front) && checks[|checks| - 1].pass;
    }
  }

  /** Paired lists leave no error unexplained and no failure unreported. */
  lemma PairedMeansValid(checks: seq<Check>, errors: seq<Issue>)
    requires PairedLists(checks, errors)
    ensures errors == [] <==> AllPass(checks)
  {
    NoFailuresIffAllPass(checks);
  }

  class Report {
    var valid: bool
    var checks: seq<Check>
    var warnings: seq<Issue>
    var errors: seq<Issue>

    constructor ()
      ensures valid && checks == [] && warnings == [] && errors == []
    {
      valid, checks, warnings, errors := true, [], [], [];
    }

    ghost predicate Paired()
      reads this
    {
      PairedLists(checks, errors)
    }

    /** A check, and the error that goes with it when it fails. */
    method Record(topic: Topic, pass: bool, issue: Issue)
      requires Paired() && Explains(issue, topic)
      modifies this`checks, this`errors
      ensures Paired()
      ensures checks == old(checks) + [Check(topic, pass)]
      ensures errors == old(errors) + if pass then [] else [issue]
    {
      checks := checks + [Check(topic, pass)];
      assert checks[..|checks| - 1] == old(checks);
      if !pass {
        errors := errors + [issue];
      }
    }

    method ValidateDimensions(ir: Ir)
      requires Paired()
      modifies this`checks, this`errors
      ensures Paired() && old(checks) <= checks && old(errors) <= errors
      ensures errors == old(errors) <==>
              forall name | name in RequiredDimensions(ir.partType) :: DimensionOk(ir.dimensions, name)
      ensures forall name | name in RequiredDimensions(ir.partType) ::
                Check(RequiredDimension(name), DimensionOk(ir.dimensions, name)) in checks
    {
      var required := RequiredDimensions(ir.partType);
      for i := 0 to |required|
        invariant Paired() && old(checks) <= checks && old(errors) <= errors
        invariant errors == old(errors) <==> forall j | 0 <= j < i :: DimensionOk(ir.dimensions, required[j])
        invariant forall j | 0 <= j < i ::
                    Check(RequiredDimension(required[j]), DimensionOk(ir.dimensions, required[j])) in checks
      {
        var name := required[i];
        var present := name in ir.dimensions;
        var positive := present && ir.dimensions[name] > 0.0;
        Record(RequiredDimension(name), present && positive,
               if !present then MissingDimension(name) else InvalidDimension(name));
      }
    }

    method ValidateOutputs(ir: Ir)
      requires Paired()
      modifies this`checks, this`errors
      ensures Paired() && old(checks) <= checks && old(errors) <= errors
      ensures errors == old(errors) <==> forall output | output in ir.outputs :: output in OUTPUTS
      ensures forall output | output in ir.outputs :: Check(OutputSupported(output), output in OUTPUTS) in checks
    {
      for i := 0 to |ir.outputs|
        invariant Paired() && old(checks) <= checks && old(errors) <= errors
        invariant errors == old(errors) <==> forall j | 0 <= j < i :: ir.outputs[j] in OUTPUTS
        invariant forall j | 0 <= j < i :: Check(OutputSupported(ir.outputs[j]), ir.outputs[j] in OUTPUTS) in checks
      {
        var output := ir.outputs[i];
        Record(OutputSupported(output), output in OUTPUTS, UnsupportedOutput(output));
      }
    }

    method ValidateFeature(partType: string, feature: string, v: Value)
      requires Paired()
      modifies this`checks, this`errors, this`warnings
      ensures Paired() && old(checks) <= checks && old(errors) <= errors
      ensures errors == old(errors) <==> FeatureOk(partType, feature, v)
      ensures Check(FeatureSupported(feature), feature in SupportedFeatures(partType)) in checks
      ensures warnings == old(warnings) +
                if feature in UnverifiedFeatures(partType) then [FeatureUnverified(feature)] else []
    {
      var supported := feature in SupportedFeatures(partType);
      Record(FeatureSupported(feature), supported, UnsupportedFeature(feature));
      if supported {
        if feature in UnverifiedFeatures(partType) {
          warnings := warnings + [FeatureUnverified(feature)];
        }
        if feature in HOLE_FEATURES && !HoleSemanticsOk(v) {
          Record(FeatureSemantics(feature), false, UnsupportedSemantics(feature));
        }
      }
    }

    /** Features in whatever order the dictionary yields them. */
    method ValidateFeatures(ir: Ir)
      requires Paired()
      modifies this`checks, this`errors, this`warnings
      ensures Paired() && old(checks) <= checks && old(errors) <= errors && old(warnings) <= warnings
      ensures errors == old(errors) <==>
              forall f | f in ir.features :: FeatureOk(ir.partType, f, ir.features[f])
      ensures forall f | f in ir.features ::
                Check(FeatureSupported(f), f in SupportedFeatures(ir.partType)) in checks
      ensures forall f | f in ir.features && f in UnverifiedFeatures(ir.partType) :: FeatureUnverified(f) in warnings
    {
      var rest := ir.features.Keys;
      while rest != {}
        invariant rest <= ir.features.Keys
        invariant Paired() && old(checks) <= checks && old(errors) <= errors && old(warnings) <= warnings
        invariant errors == old(errors) <==>
                  forall f | f in ir.features && f !in rest :: FeatureOk(ir.partType, f, ir.features[f])
        invariant forall f | f in ir.features && f !in rest ::
                    Check(FeatureSupported(f), f in SupportedFeatures(ir.partType)) in checks
        invariant forall f | f in ir.features && f !in rest && f in UnverifiedFeatures(ir.partType) ::
                    FeatureUnverified(f) in warnings
        decreases |rest|
      {
        var feature :| feature in rest;
        rest := rest - {feature};
        ValidateFeature(ir.partType, feature, ir.features[feature]);
      }
    }

    method ValidateLinkLike(ir: Ir)
      requires Paired()
      modifies this`checks, this`errors
      ensures Paired() && old(checks) <= checks && old(errors) <= errors
      ensures errors == old(errors) <==> LinkContractOk(ir)
    {
      Record(GeometryFamily, ir.geometryFamily == Some("elongated_plate_with_end_holes"), UnsupportedGeometryFamily);
      if !HasLinkDimensions(ir.dimensions) { return; }
      var rules := [HoleNarrowerThanPart, HolesWithinLength, EdgeMargin, ConceptThickness];
      ghost var familyErrors := errors;
      for i := 0 to |rules|
        invariant Paired() && old(checks) <= checks && familyErrors <= errors
        invariant errors == familyErrors <==> forall j | 0 <= j < i :: LinkRuleHolds(rules[j], ir.dimensions)
      {
        Record(LinkLike(rules[i]), LinkRuleHolds(rules[i], ir.dimensions), InvalidLinkGeometry(rules[i]));
      }
      assert rules[0] == HoleNarrowerThanPart && rules[1] == HolesWithinLength;
      assert rules[2] == EdgeMargin && rules[3] == ConceptThickness;
    }
  }

  /** `validate_ir`: the verdict is the meaning above, and the report accounts for it. */
  method ValidateIr(ir: Ir) returns (report: Report)
    ensures report.valid <==> ValidIr(ir)
    ensures report.valid <==> AllPass(report.checks)
    ensures PairedLists(report.checks, report.errors)
    ensures forall name | name in RequiredDimensions(ir.partType) ::
              Check(RequiredDimension(name), DimensionOk(ir.dimensions, name)) in report.checks
    ensures forall output | output in ir.outputs :: Check(OutputSupported(output), output in OUTPUTS) in report.checks
    ensures forall f | f in ir.features ::
              Check(FeatureSupported(f), f in SupportedFeatures(ir.partType)) in report.checks
  {
    report := new Report();
    report.Record(UnitMm, ir.unit == "mm", UnsupportedUnit);
    report.Record(PartTypeSupported, ir.partType in PART_TYPES, UnsupportedPartType);
    report.ValidateDimensions(ir);
    report.ValidateOutputs(ir);
    report.ValidateFeatures(ir);
    if ir.partType == "link_like_part" {
      report.ValidateLinkLike(ir);
    }
    report.valid := report.errors == [];
    PairedMeansValid(report.checks, report.errors);
  }
}
