/** Repair and validation together: a valid IR stays valid, and only the implicated fields change. */
module IrRepairValidity {
  import opened Json
  import opened Reals
  import opened CadIr
  import opened IrRepair
  import opened IrRepairProperties
  import opened IrValidator

  ghost predicate AtLeastHundredth(dimensions: map<string, real>) {
    forall k | k in dimensions :: dimensions[k] >= 0.01
  }

  lemma HoleKeepsSemantics(v: Value, span: real, round: real -> real)
    requires HolesNumeric(v)
    ensures HoleSemanticsOk(RepairedHoles(v, span, round)) <==> HoleSemanticsOk(v)
  {
    var after := RepairedHoles(v, span, round);
    var hole := if v.Arr? && v.items != [] then v.items[0] else v;
    var hole' := if after.Arr? && after.items != [] then after.items[0] else after;
    if hole.Obj? {
      assert hole' == RepairedHoleItem(hole, span, round);
      OtherHoleFieldsKept(hole.fields, span, round);
      assert Get(hole'.fields, "positions") == Get(hole.fields, "positions");
      assert Get(hole'.fields, "pattern") == Get(hole.fields, "pattern");
      assert Get(hole'.fields, "count") == Get(hole.fields, "count");
    }
  }

  lemma OtherHoleFieldsKept(hole: map<string, Value>, span: real, round: real -> real)
    requires HoleNumeric(hole)
    ensures forall k | k != "diameter" && k != "offset_from_edge" ::
              Get(RepairedHole(hole, span, round), k) == Get(hole, k)
  {
  }

  lemma HoleKeysAreHoleFeatures(k: string)
    ensures k in HOLE_KEYS <==> k in HOLE_FEATURES
  {
  }

  lemma FeaturesStayOk(ir: Ir, a: Analysis, round: real -> real)
    requires Repairable(ir)
    requires forall k | k in ir.features :: FeatureOk(ir.partType, k, ir.features[k])
    ensures var after := FeaturesRepaired(ir, a, round);
            forall k | k in after :: FeatureOk(ir.partType, k, after[k])
  {
    FeaturesPointwise(ir, a, round);
    var after := FeaturesRepaired(ir, a, round);
    forall k | k in after ensures FeatureOk(ir.partType, k, after[k]) {
      assert FeatureOk(ir.partType, k, ir.features[k]);
      HoleKeysAreHoleFeatures(k);
      if k in HOLE_KEYS {
        HoleKeepsSemantics(ir.features[k], HoleSpan(ir.partType, ir.dimensions), round);
      }
    }
  }

  /** The one way a dimension repair can go wrong: its new value is rounded down to nothing. */
  predicate RoundsAway(partType: string, dimensions: map<string, real>, round: real -> real) {
    var outer := Dimension(dimensions, "outer_diameter");
    var wall, limit := Dimension(dimensions, "wall_thickness"), WallLimit(dimensions);
    || (partType == "spacer" && 0.0 < outer <= Dimension(dimensions, "inner_diameter")
        && round(outer * 0.55) <= 0.0)
    || (partType == "enclosure_base" && wall > 0.0 && limit > 0.0 && wall >= limit
        && round(limit * 0.25) <= 0.0)
  }

  lemma RequiredStayOk(partType: string, dimensions: map<string, real>, round: real -> real)
    requires forall name | name in RequiredDimensions(partType) :: DimensionOk(dimensions, name)
    ensures var after := DimensionsRepaired(partType, dimensions, round);
            (forall name | name in RequiredDimensions(partType) :: DimensionOk(after, name))
            <==> !RoundsAway(partType, dimensions, round)
  {
    var after := DimensionsRepaired(partType, dimensions, round);
    var required := RequiredDimensions(partType);
    if partType == "spacer" {
      assert required[0] == "inner_diameter" && required[1] == "outer_diameter";
      assert DimensionOk(dimensions, required[0]) && DimensionOk(dimensions, required[1]);
      if RoundsAway(partType, dimensions, round) { assert !DimensionOk(after, required[0]); }
    } else if partType == "enclosure_base" {
      assert required[3] == "wall_thickness" && DimensionOk(dimensions, required[3]);
      if RoundsAway(partType, dimensions, round) { assert !DimensionOk(after, required[3]); }
    }
  }

  /** A valid IR stays valid under repair exactly when no repaired dimension is rounded away. */
  lemma RepairKeepsValidExactly(ir: Ir, a: Analysis, round: real -> real)
    requires Repairable(ir) && ValidIr(ir)
    ensures ValidIr(Repaired(ir, a, round)) <==> !RoundsAway(ir.partType, ir.dimensions, round)
  {
    var after := Repaired(ir, a, round);
    FeaturesStayOk(ir, a, round);
    RequiredStayOk(ir.partType, ir.dimensions, round);
    assert ir.partType == "link_like_part" ==> after.dimensions == ir.dimensions;
    assert forall i | 0 <= i < 2 :: REQUIRED_OUTPUTS[i] in OUTPUTS;
  }

  /** In particular with all dimensions at least 0.01. */
  lemma RepairPreservesValidity(ir: Ir, a: Analysis, round: real -> real)
    requires Repairable(ir) && Rounding(round)
    requires ValidIr(ir) && AtLeastHundredth(ir.dimensions)
    ensures ValidIr(Repaired(ir, a, round))
  {
    RepairKeepsValidExactly(ir, a, round);
  }

  /** Whatever the analysis says, nothing but these fields is touched. */
  lemma RepairTouchesOnly(ir: Ir, a: Analysis, round: real -> real)
    requires Repairable(ir) && Rounding(round)
    ensures var after := Repaired(ir, a, round);
            && after == ir.(outputs := after.outputs, features := after.features, dimensions := after.dimensions)
            && after.features.Keys == ir.features.Keys
            && (forall k | k in ir.features && after.features[k] != ir.features[k] ::
                  (RepairsHoles(a) && k in HOLE_KEYS) || (RepairsRelief(a) && k in {"chamfer", "fillet"}))
            && (forall k | k in ir.dimensions && (k in after.dimensions ==> after.dimensions[k] != ir.dimensions[k]) ::
                  (ir.partType == "spacer" && k == "inner_diameter")
                  || (ir.partType == "enclosure_base" && k == "wall_thickness"))
  {
    FeaturesPointwise(ir, a, round);
  }

  /** The exception is real: a tiny spacer's bore is rounded away to zero. */
  lemma TinySpacerBecomesInvalid(ir: Ir, a: Analysis)
    requires ir.partType == "spacer" && ir.unit == "mm" && ir.features == map[] && ir.outputs == []
    requires ir.dimensions == map["outer_diameter" := 0.0005, "inner_diameter" := 1.0, "thickness" := 1.0]
    ensures Repairable(ir) && ValidIr(ir)
    ensures !ValidIr(Repaired(ir, a, RoundHalfEven))
  {
    var dims := ir.dimensions;
    assert dims["outer_diameter"] == 0.0005 && dims["inner_diameter"] == 1.0 && dims["thickness"] == 1.0;
    assert forall i | 0 <= i < 3 :: DimensionOk(dims, RequiredDimensions("spacer")[i]);
    assert RoundHalfEven(0.0005 * 0.55) == 0.0 by {
      assert (0.0005 * 0.55 * 1000.0).Floor == 0;
    }
    RepairKeepsValidExactly(ir, a, RoundHalfEven);
  }
}
