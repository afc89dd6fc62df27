/** Deterministic repair of CAD IR values, with rounding as any rounding to three decimals. */
module IrRepair {
  import opened Json
  import opened Reals
  import opened CadIr

  datatype Analysis = Analysis(strategy: Option<string>, affected: Option<string>)

  /** What the fixpoints use of `round(x, 3)`: it is monotone and fixes its own results. */
  ghost predicate Settling(round: real -> real) {
    && (forall x, y :: x <= y ==> round(x) <= round(y))
    && (forall x :: round(round(x)) == round(x))
  }

  /** What the geometry uses besides: a result is at most half a step off. */
  ghost predicate Rounding(round: real -> real) {
    && Settling(round)
    && (forall x :: x - 0.0005 <= round(x) <= x + 0.0005)
  }

  // ------------------------------------------------------------ plain numbers

  /** Values `float(x or 0)` accepts here: numbers, and everything Python counts as false. */
  predicate Numeric(v: Option<Value>) {
    v.None? || v.value.Int? || v.value.Float? || v.value.Bool? || v.value in {Null, Str(""), Arr([]), Obj(map[])}
  }

  function Number(v: Option<Value>): real
    requires Numeric(v)
  {
    match v
    case Some(Int(i)) => i as real
    case Some(Float(r)) => r
    case Some(Bool(b)) => if b then 1.0 else 0.0
    case _ => 0.0
  }

  function Dimension(dimensions: map<string, real>, key: string): real {
    if key in dimensions then dimensions[key] else 0.0
  }

  /** `min` of the positive dimensions among some keys, 0 when there is none. */
  ghost predicate IsSmallest(x: real, dimensions: map<string, real>, keys: set<string>)
    requires keys <= dimensions.Keys
  {
    && (x == 0.0 || exists k | k in keys :: dimensions[k] == x > 0.0)
    && forall k | k in keys :: dimensions[k] <= 0.0 || 0.0 < x <= dimensions[k]
  }

  method SmallestPositive(dimensions: map<string, real>) returns (smallest: real)
    ensures IsSmallest(smallest, dimensions, dimensions.Keys)
  {
    smallest := 0.0;
    var rest := dimensions.Keys;
    while rest != {}
      invariant rest <= dimensions.Keys
      invariant IsSmallest(smallest, dimensions, dimensions.Keys - rest)
      decreases |rest|
    {
      var k :| k in rest;
      rest := rest - {k};
      if dimensions[k] > 0.0 && (smallest == 0.0 || dimensions[k] < smallest) {
        smallest := dimensions[k];
      }
    }
  }

  lemma {:induction false} SmallestExists(dimensions: map<string, real>, keys: set<string>) returns (x: real)
    requires keys <= dimensions.Keys
    ensures IsSmallest(x, dimensions, keys)
  {
    if keys == {} {
      x := 0.0;
    } else {
      var k :| k in keys;
      x := SmallestExists(dimensions, keys - {k});
      if dimensions[k] > 0.0 && (x == 0.0 || dimensions[k] < x) {
        x := dimensions[k];
      }
    }
  }

  ghost function Smallest(dimensions: map<string, real>): (x: real)
    ensures IsSmallest(x, dimensions, dimensions.Keys)
  {
    assert exists x :: IsSmallest(x, dimensions, dimensions.Keys) by {
      var x := SmallestExists(dimensions, dimensions.Keys);
    }
    var x :| IsSmallest(x, dimensions, dimensions.Keys);
    x
  }

  // ------------------------------------------------------------------- holes

  const HOLE_KEYS: seq<string> := ["holes", "mounting_holes", "base_holes"]

  /** The shortest span a hole pattern has to fit in. */
  ghost function HoleSpan(partType: string, dimensions: map<string, real>): real {
    if partType == "mounting_plate" || partType == "enclosure_lid" then
      Min(Dimension(dimensions, "length"), Dimension(dimensions, "width"))
    else if partType == "simple_bracket" then
      Min(Dimension(dimensions, "base_length"), Dimension(dimensions, "base_width"))
    else
      Smallest(dimensions)
  }

  predicate HoleNumeric(hole: map<string, Value>) {
    Numeric(Get(hole, "diameter")) && Numeric(Get(hole, "offset_from_edge"))
  }

  /** A missing or zero offset counts as the minimum and is left as it is. */
  function OffsetOr(hole: map<string, Value>, default: real): real
    requires HoleNumeric(hole)
  {
    var stored := Number(Get(hole, "offset_from_edge"));
    if stored == 0.0 then default else stored
  }

  function ClampedOffset(current: real, diameter: real, span: real): real {
    var low := diameter * 0.75;
    Min(Max(current, low), Max(span / 2.0 - diameter * 0.75, low))
  }

  function ShrunkHole(hole: map<string, Value>, span: real, round: real -> real): map<string, Value>
    requires HoleNumeric(hole)
  {
    if Number(Get(hole, "diameter")) > span * 0.3 then
      hole["diameter" := Float(round(span * 0.25))]
    else
      hole
  }

  function RepairedHole(hole: map<string, Value>, span: real, round: real -> real): map<string, Value>
    requires HoleNumeric(hole)
  {
    if Number(Get(hole, "diameter")) <= 0.0 || span <= 0.0 then hole
    else
      var shrunk := ShrunkHole(hole, span, round);
      var diameter := Number(Get(shrunk, "diameter"));
      var current := OffsetOr(shrunk, diameter * 0.75);
      var offset := ClampedOffset(current, diameter, span);
      if offset != current then shrunk["offset_from_edge" := Float(round(offset))] else shrunk
  }

  predicate HolesNumeric(v: Value) {
    match v
    case Arr(items) => forall i | 0 <= i < |items| :: items[i].Obj? && HoleNumeric(items[i].fields)
    case Obj(hole) => HoleNumeric(hole)
    case _ => true
  }

  predicate FeatureHolesNumeric(features: map<string, Value>) {
    forall k | k in features && k in HOLE_KEYS :: HolesNumeric(features[k])
  }

  function RepairedHoleItem(item: Value, span: real, round: real -> real): Value
    requires item.Obj? && HoleNumeric(item.fields)
  {
    Obj(RepairedHole(item.fields, span, round))
  }

  function RepairedHoles(v: Value, span: real, round: real -> real): Value
    requires HolesNumeric(v)
  {
    match v
    case Arr(items) =>
      Arr(seq(|items|, i requires 0 <= i < |items| => RepairedHoleItem(items[i], span, round)))
    case Obj(hole) => RepairedHoleItem(v, span, round)
    case _ => v
  }

  function HolesRepaired(features: map<string, Value>, keys: seq<string>, span: real, round: real -> real)
    : map<string, Value>
    requires FeatureHolesNumeric(features)
    requires forall k | k in keys :: k in HOLE_KEYS
  {
    map k | k in features :: if k in keys then RepairedHoles(features[k], span, round) else features[k]
  }

  /** One more key of the repair loop. */
  lemma HoleKeyRepaired(features: map<string, Value>, n: nat, span: real, round: real -> real)
    requires FeatureHolesNumeric(features) && n < |HOLE_KEYS|
    ensures var before, key := HolesRepaired(features, HOLE_KEYS[..n], span, round), HOLE_KEYS[n];
            && (key in before ==> HolesNumeric(before[key]) && before[key] == features[key])
            && (key in before <==> key in features)
            && HolesRepaired(features, HOLE_KEYS[..n + 1], span, round)
               == if key !in before then before else before[key := RepairedHoles(before[key], span, round)]
  {
    hide HolesNumeric, RepairedHoles;
    var key := HOLE_KEYS[n];
    assert HOLE_KEYS[..n + 1] == HOLE_KEYS[..n] + [key];
    HoleKeysDistinct(n);
  }

  lemma HoleKeysDistinct(n: nat)
    requires n < |HOLE_KEYS|
    ensures HOLE_KEYS[n] !in HOLE_KEYS[..n]
  {
    assert HOLE_KEYS[0][0] != HOLE_KEYS[1][0] && HOLE_KEYS[0][0] != HOLE_KEYS[2][0];
    assert HOLE_KEYS[1][0] != HOLE_KEYS[2][0];
  }

  // ------------------------------------------------------------- edge relief

  ghost function ReliefLimit(dimensions: map<string, real>): real {
    Smallest(dimensions) * 0.2
  }

  predicate ReliefNumeric(v: Value, sizeKey: string) {
    v.Obj? ==> Numeric(Get(v.fields, sizeKey))
  }

  function RepairedRelief(v: Value, sizeKey: string, limit: real, round: real -> real): Value
    requires ReliefNumeric(v, sizeKey)
  {
    match v
    case Obj(fields) =>
      if limit != 0.0 && Number(Get(fields, sizeKey)) > limit then
        Obj(fields[sizeKey := Float(round(limit))])
      else v
    case Int(_) => if limit != 0.0 && Number(Some(v)) > limit then Float(round(limit)) else v
    case Float(_) => if limit != 0.0 && Number(Some(v)) > limit then Float(round(limit)) else v
    case Bool(_) => if limit != 0.0 && Number(Some(v)) > limit then Float(round(limit)) else v
    case _ => v
  }

  predicate FeatureReliefNumeric(features: map<string, Value>) {
    && ("chamfer" in features ==> ReliefNumeric(features["chamfer"], "size"))
    && ("fillet" in features ==> ReliefNumeric(features["fillet"], "radius"))
  }

  function ReliefRepaired(features: map<string, Value>, limit: real, round: real -> real): map<string, Value>
    requires FeatureReliefNumeric(features)
  {
    map k | k in features ::
      if k == "chamfer" then RepairedRelief(features[k], "size", limit, round)
      else if k == "fillet" then RepairedRelief(features[k], "radius", limit, round)
      else features[k]
  }

  // -------------------------------------------------------------- dimensions

  function SpacerRepaired(dimensions: map<string, real>, round: real -> real): map<string, real> {
    var outer := Dimension(dimensions, "outer_diameter");
    if outer > 0.0 && Dimension(dimensions, "inner_diameter") >= outer then
      dimensions["inner_diameter" := round(outer * 0.55)]
    else
      dimensions
  }

  function WallLimit(dimensions: map<string, real>): real {
    Min(Dimension(dimensions, "outer_length"), Dimension(dimensions, "outer_width")) / 2.0
  }

  function EnclosureRepaired(dimensions: map<string, real>, round: real -> real): map<string, real> {
    var wall, limit := Dimension(dimensions, "wall_thickness"), WallLimit(dimensions);
    if wall > 0.0 && limit > 0.0 && wall >= limit then
      dimensions["wall_thickness" := round(limit * 0.25)]
    else
      dimensions
  }

  function DimensionsRepaired(partType: string, dimensions: map<string, real>, round: real -> real)
    : map<string, real>
  {
    if partType == "spacer" then SpacerRepaired(dimensions, round)
    else if partType == "enclosure_base" then EnclosureRepaired(dimensions, round)
    else dimensions
  }

  // -------------------------------------------------------- the whole repair

  const REQUIRED_OUTPUTS: seq<string> := ["step", "stl"]

  predicate RepairsHoles(a: Analysis) {
    || a.strategy in {Some("increase_spacing"), Some("repair_feature_clearance"), Some("conservative_geometry")}
    || a.affected == Some("holes")
  }

  predicate RepairsRelief(a: Analysis) {
    a.strategy == Some("reduce_size") || a.affected in {Some("chamfer"), Some("fillet")}
  }

  /** The entries the repair reads as numbers are numbers, as the source's `float(...)` calls need. */
  predicate Repairable(ir: Ir) {
    FeatureHolesNumeric(ir.features) && FeatureReliefNumeric(ir.features)
  }

  ghost function HoleStage(ir: Ir, a: Analysis, round: real -> real): map<string, Value>
    requires Repairable(ir)
  {
    if RepairsHoles(a) then
      HolesRepaired(ir.features, HOLE_KEYS, HoleSpan(ir.partType, ir.dimensions), round)
    else
      ir.features
  }

  ghost function FeaturesRepaired(ir: Ir, a: Analysis, round: real -> real): map<string, Value>
    requires Repairable(ir)
  {
    var features := HoleStage(ir, a, round);
    if RepairsRelief(a) then ReliefRepaired(features, ReliefLimit(ir.dimensions), round) else features
  }

  ghost function Repaired(ir: Ir, a: Analysis, round: real -> real): Ir
    requires Repairable(ir)
  {
    ir.(outputs := REQUIRED_OUTPUTS,
        features := FeaturesRepaired(ir, a, round),
        dimensions := DimensionsRepaired(ir.partType, ir.dimensions, round))
  }

  lemma HolesKeepRelief(ir: Ir, a: Analysis, round: real -> real)
    requires Repairable(ir)
    ensures FeatureReliefNumeric(HoleStage(ir, a, round))
    ensures ReliefChanges(HoleStage(ir, a, round), ReliefLimit(ir.dimensions))
         == ReliefChanges(ir.features, ReliefLimit(ir.dimensions))
  {
    assert "chamfer" !in HOLE_KEYS && "fillet" !in HOLE_KEYS;
  }

  // ------------------------------------------------------- the list of changes

  /** The entries of the reported list, one for each text. */
  datatype Change =
    | RestoredOutputs | ReducedDiameter | AdjustedSpacing | ReducedRelief(key: string) | ReducedBore | ReducedWall
    | NothingChanged

  function HoleChanges(hole: map<string, Value>, span: real, round: real -> real): seq<Change>
    requires HoleNumeric(hole)
  {
    if Number(Get(hole, "diameter")) <= 0.0 || span <= 0.0 then []
    else
      var diameter := Number(Get(ShrunkHole(hole, span, round), "diameter"));
      var current := OffsetOr(hole, diameter * 0.75);
      (if Number(Get(hole, "diameter")) > span * 0.3 then [ReducedDiameter] else [])
      + (if ClampedOffset(current, diameter, span) != current then [AdjustedSpacing] else [])
  }

  function HoleListChanges(items: seq<Value>, span: real, round: real -> real): seq<Change>
    requires HolesNumeric(Arr(items))
  {
    if items == [] then []
    else
      var last := |items| - 1;
      HoleListChanges(items[..last], span, round) + HoleChanges(items[last].fields, span, round)
  }

  function HoleFeatureChanges(v: Value, span: real, round: real -> real): seq<Change>
    requires HolesNumeric(v)
  {
    match v
    case Arr(items) => HoleListChanges(items, span, round)
    case Obj(hole) => HoleChanges(hole, span, round)
    case _ => []
  }

  function HoleKeysChanges(features: map<string, Value>, keys: seq<string>, span: real, round: real -> real)
    : seq<Change>
    requires FeatureHolesNumeric(features)
    requires forall k | k in keys :: k in HOLE_KEYS
  {
    if keys == [] then []
    else
      var last := |keys| - 1;
      HoleKeysChanges(features, keys[..last], span, round)
      + (if keys[last] in features then HoleFeatureChanges(features[keys[last]], span, round) else [])
  }

  predicate ReliefReduced(v: Value, sizeKey: string, limit: real)
    requires ReliefNumeric(v, sizeKey)
  {
    limit != 0.0 &&
    match v
    case Obj(fields) => Number(Get(fields, sizeKey)) > limit
    case Int(_) | Float(_) | Bool(_) => Number(Some(v)) > limit
    case _ => false
  }

  function KeyReliefChanges(features: map<string, Value>, key: string, sizeKey: string, limit: real): seq<Change>
    requires key in features ==> ReliefNumeric(features[key], sizeKey)
  {
    if key in features && ReliefReduced(features[key], sizeKey, limit) then [ReducedRelief(key)] else []
  }

  function ReliefChanges(features: map<string, Value>, limit: real): seq<Change>
    requires FeatureReliefNumeric(features)
  {
    KeyReliefChanges(features, "chamfer", "size", limit) + KeyReliefChanges(features, "fillet", "radius", limit)
  }

  predicate BoreReduced(dimensions: map<string, real>) {
    var outer := Dimension(dimensions, "outer_diameter");
    outer > 0.0 && Dimension(dimensions, "inner_diameter") >= outer
  }

  predicate WallReduced(dimensions: map<string, real>) {
    var wall, limit := Dimension(dimensions, "wall_thickness"), WallLimit(dimensions);
    wall > 0.0 && limit > 0.0 && wall >= limit
  }

  function DimensionChanges(partType: string, dimensions: map<string, real>): seq<Change> {
    if partType == "spacer" && BoreReduced(dimensions) then [ReducedBore]
    else if partType == "enclosure_base" && WallReduced(dimensions) then [ReducedWall]
    else []
  }

  ghost function FieldChanges(ir: Ir, a: Analysis, round: real -> real): seq<Change>
    requires Repairable(ir)
  {
    (if ir.outputs != REQUIRED_OUTPUTS then [RestoredOutputs] else [])
    + (if RepairsHoles(a) then
         HoleKeysChanges(ir.features, HOLE_KEYS, HoleSpan(ir.partType, ir.dimensions), round)
       else [])
    + (if RepairsRelief(a) then ReliefChanges(ir.features, ReliefLimit(ir.dimensions)) else [])
    + DimensionChanges(ir.partType, ir.dimensions)
  }

  ghost function Changes(ir: Ir, a: Analysis, round: real -> real): seq<Change>
    requires Repairable(ir)
  {
    if FieldChanges(ir, a, round) == [] then [NothingChanged] else FieldChanges(ir, a, round)
  }

  // ------------------------------------------------- the repair, step by step

  /** The mutable copy `repair_ir` edits in place. */
  class Draft {
    const partType: string
    var dimensions: map<string, real>
    var features: map<string, Value>
    var outputs: seq<string>

    constructor (ir: Ir)
      ensures partType == ir.partType && dimensions == ir.dimensions
      ensures features == ir.features && outputs == ir.outputs
    {
      partType, dimensions, features, outputs := ir.partType, ir.dimensions, ir.features, ir.outputs;
    }

    method ShortestSpan() returns (span: real)
      ensures span == HoleSpan(partType, dimensions)
    {
      if partType == "mounting_plate" || partType == "enclosure_lid" {
        span := Min(Dimension(dimensions, "length"), Dimension(dimensions, "width"));
      } else if partType == "simple_bracket" {
        span := Min(Dimension(dimensions, "base_length"), Dimension(dimensions, "base_width"));
      } else {
        span := SmallestPositive(dimensions);
      }
    }

    method RepairHoleFeature(key: string, span: real, round: real -> real) returns (changes: seq<Change>)
      requires key in features ==> HolesNumeric(features[key])
      modifies this`features
      ensures features == if key !in old(features) then old(features)
                          else old(features)[key := RepairedHoles(old(features)[key], span, round)]
      ensures changes == if key !in old(features) then []
                         else HoleFeatureChanges(old(features)[key], span, round)
    {
      changes := [];
      if key in features {
        match features[key] {
          case Arr(items) =>
            var edited;
            edited, changes := RepairHoleList(items, span, round);
            features := features[key := Arr(edited)];
          case Obj(hole) =>
            var edited;
            edited, changes := RepairHole(hole, span, round);
            features := features[key := Obj(edited)];
          case _ =>
        }
      }
    }

    method RepairHoles(round: real -> real) returns (changes: seq<Change>)
      requires FeatureHolesNumeric(features)
      modifies this`features
      ensures features == HolesRepaired(old(features), HOLE_KEYS, HoleSpan(partType, dimensions), round)
      ensures changes == HoleKeysChanges(old(features), HOLE_KEYS, HoleSpan(partType, dimensions), round)
    {
      hide HolesNumeric, RepairedHoles, HoleSpan, HoleFeatureChanges;
      var span := ShortestSpan();
      ghost var was := features;
      changes := [];
      for n := 0 to |HOLE_KEYS|
        invariant features == HolesRepaired(was, HOLE_KEYS[..n], span, round)
        invariant changes == HoleKeysChanges(was, HOLE_KEYS[..n], span, round)
      {
        HoleKeyRepaired(was, n, span, round);
        var more := RepairHoleFeature(HOLE_KEYS[n], span, round);
        assert HOLE_KEYS[..n + 1][..n] == HOLE_KEYS[..n];
        changes := changes + more;
      }
      assert HOLE_KEYS[..|HOLE_KEYS|] == HOLE_KEYS;
    }

    method RepairReliefFeature(key: string, sizeKey: string, limit: real, round: real -> real)
      returns (changes: seq<Change>)
      requires key in features ==> ReliefNumeric(features[key], sizeKey)
      modifies this`features
      ensures features == if key !in old(features) then old(features)
                          else old(features)[key := RepairedRelief(old(features)[key], sizeKey, limit, round)]
      ensures changes == KeyReliefChanges(old(features), key, sizeKey, limit)
    {
      changes := [];
      if key in features {
        var value := features[key];
        if ReliefReduced(value, sizeKey, limit) {
          features := features[key := RepairedRelief(value, sizeKey, limit, round)];
          changes := [ReducedRelief(key)];
        } else {
          assert RepairedRelief(value, sizeKey, limit, round) == value && features == features[key := value];
        }
      }
    }

    method RepairEdgeRelief(round: real -> real) returns (changes: seq<Change>)
      requires FeatureReliefNumeric(features)
      modifies this`features
      ensures features == ReliefRepaired(old(features), ReliefLimit(dimensions), round)
      ensures changes == ReliefChanges(old(features), ReliefLimit(dimensions))
    {
      hide RepairedRelief, ReliefReduced, ReliefNumeric;
      var smallest := SmallestPositive(dimensions);
      var limit := smallest * 0.2;
      ghost var was := features;
      changes := RepairReliefFeature("chamfer", "size", limit, round);
      var more := RepairReliefFeature("fillet", "radius", limit, round);
      changes := changes + more;
      assert KeyReliefChanges(was, "fillet", "radius", limit) == more;
    }

    method RepairSpacer(round: real -> real) returns (changes: seq<Change>)
      modifies this`dimensions
      ensures dimensions == SpacerRepaired(old(dimensions), round)
      ensures changes == if BoreReduced(old(dimensions)) then [ReducedBore] else []
    {
      changes := [];
      var outer := Dimension(dimensions, "outer_diameter");
      var inner := Dimension(dimensions, "inner_diameter");
      if outer > 0.0 && inner >= outer {
        dimensions := dimensions["inner_diameter" := round(outer * 0.55)];
        changes := [ReducedBore];
      }
    }

    method RepairEnclosureBase(round: real -> real) returns (changes: seq<Change>)
      modifies this`dimensions
      ensures dimensions == EnclosureRepaired(old(dimensions), round)
      ensures changes == if WallReduced(old(dimensions)) then [ReducedWall] else []
    {
      changes := [];
      var wall := Dimension(dimensions, "wall_thickness");
      var limit := Min(Dimension(dimensions, "outer_length"), Dimension(dimensions, "outer_width")) / 2.0;
      if wall > 0.0 && limit > 0.0 && wall >= limit {
        dimensions := dimensions["wall_thickness" := round(limit * 0.25)];
        changes := [ReducedWall];
      }
    }

    method RepairDimensions(round: real -> real) returns (changes: seq<Change>)
      modifies this`dimensions
      ensures dimensions == DimensionsRepaired(partType, old(dimensions), round)
      ensures changes == DimensionChanges(partType, old(dimensions))
    {
      hide SpacerRepaired, EnclosureRepaired, BoreReduced, WallReduced;
      changes := [];
      if partType == "spacer" {
        changes := RepairSpacer(round);
      }
      if partType == "enclosure_base" {
        changes := RepairEnclosureBase(round);
      }
    }
  }

  method RepairHole(hole: map<string, Value>, span: real, round: real -> real)
    returns (item: map<string, Value>, changes: seq<Change>)
    requires HoleNumeric(hole)
    ensures item == RepairedHole(hole, span, round) && changes == HoleChanges(hole, span, round)
  {
    item, changes := hole, [];
    var diameter := Number(Get(item, "diameter"));
    if diameter <= 0.0 || span <= 0.0 { return; }
    if diameter > span * 0.3 {
      diameter := round(span * 0.25);
      item := item["diameter" := Float(diameter)];
      changes := changes + [ReducedDiameter];
    }
    var minOffset := diameter * 0.75;
    var maxOffset := Max(span / 2.0 - diameter * 0.75, minOffset);
    var stored := Number(Get(item, "offset_from_edge"));
    var current := if stored == 0.0 then minOffset else stored;
    var repaired := Min(Max(current, minOffset), maxOffset);
    if repaired != current {
      item := item["offset_from_edge" := Float(round(repaired))];
      changes := changes + [AdjustedSpacing];
    }
  }

  lemma NoHoles(items: seq<Value>, span: real, round: real -> real)
    ensures HoleListChanges(items[..0], span, round) == []
  {
  }

  lemma OneMoreHole(items: seq<Value>, i: nat, span: real, round: real -> real)
    requires HolesNumeric(Arr(items)) && i < |items|
    ensures HoleListChanges(items[..i + 1], span, round)
         == HoleListChanges(items[..i], span, round) + HoleChanges(items[i].fields, span, round)
  {
    hide HoleChanges, HoleNumeric;
    assert items[..i + 1][..i] == items[..i];
  }

  method RepairHoleList(items: seq<Value>, span: real, round: real -> real)
    returns (edited: seq<Value>, changes: seq<Change>)
    requires HolesNumeric(Arr(items))
    ensures Arr(edited) == RepairedHoles(Arr(items), span, round) && changes == HoleListChanges(items, span, round)
  {
    hide HoleChanges, HoleListChanges, RepairedHole, HoleNumeric;
    edited, changes := items, [];
    NoHoles(items, span, round);
    for i := 0 to |items|
      invariant |edited| == |items|
      invariant forall j | 0 <= j < i :: edited[j] == RepairedHoleItem(items[j], span, round)
      invariant forall j | i <= j < |items| :: edited[j] == items[j]
      invariant changes == HoleListChanges(items[..i], span, round)
    {
      var hole, more := RepairHole(edited[i].fields, span, round);
      edited := edited[i := Obj(hole)];
      OneMoreHole(items, i, span, round);
      changes := changes + more;
    }
    assert items[..|items|] == items;
  }

  /** `repair_ir` on a normalised IR, with the list of changes it reports. */
  method RepairIr(ir: Ir, a: Analysis, round: real -> real) returns (repaired: Ir, changes: seq<Change>)
    requires Repairable(ir)
    ensures repaired == Repaired(ir, a, round) && changes == Changes(ir, a, round)
  {
    hide FeatureHolesNumeric, HolesRepaired, HoleSpan, ReliefRepaired, ReliefLimit, ReliefChanges, HoleKeysChanges;
    hide DimensionsRepaired, DimensionChanges, RepairsHoles, RepairsRelief, FeatureReliefNumeric;
    HolesKeepRelief(ir, a, round);
    var draft := new Draft(ir);
    changes := [];
    if draft.outputs != REQUIRED_OUTPUTS {
      draft.outputs := REQUIRED_OUTPUTS;
      changes := changes + [RestoredOutputs];
    }
    if RepairsHoles(a) {
      var more := draft.RepairHoles(round);
      changes := changes + more;
    }
    if RepairsRelief(a) {
      var more := draft.RepairEdgeRelief(round);
      changes := changes + more;
    }
    var more := draft.RepairDimensions(round);
    changes := changes + more;
    if changes == [] {
      changes := changes + [NothingChanged];
    }
    repaired := ir.(outputs := draft.outputs, features := draft.features, dimensions := draft.dimensions);
  }
}
