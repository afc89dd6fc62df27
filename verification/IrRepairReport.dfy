/** What the list of changes of a repair says about the changes it made. */
module IrRepairReport {
  import opened Json
  import opened Reals
  import opened CadIr
  import opened IrRepair
  import opened IrRepairProperties

  // ------------------------------------------------------- the guards, read off the entries

  /** The diameter is above three tenths of the span, or the offset does not suit the diameter it leaves. */
  predicate HoleGuard(hole: map<string, Value>, span: real, round: real -> real)
    requires HoleNumeric(hole)
  {
    && Number(Get(hole, "diameter")) > 0.0 && span > 0.0
    && (|| Number(Get(hole, "diameter")) > span * 0.3
        || OffsetOff(Number(Get(hole, "offset_from_edge")), FirstDiameter(hole, span, round) * 0.75, span))
  }

  /** A stored offset outside its bounds; a missing or zero one counts as the lower bound. */
  predicate OffsetOff(stored: real, low: real, span: real) {
    stored != 0.0 && (stored < low || stored > Max(span / 2.0 - low, low))
  }

  predicate HolesGuard(v: Value, span: real, round: real -> real)
    requires HolesNumeric(v)
  {
    match v
    case Arr(items) => exists i | 0 <= i < |items| :: HoleGuard(items[i].fields, span, round)
    case Obj(hole) => HoleGuard(hole, span, round)
    case _ => false
  }

  predicate FeatureGuard(key: string, v: Value, a: Analysis, span: real, limit: real, round: real -> real)
    requires FeatureNumeric(key, v)
  {
    || (key in HOLE_KEYS && RepairsHoles(a) && HolesGuard(v, span, round))
    || (key == "chamfer" && RepairsRelief(a) && ReliefReduced(v, "size", limit))
    || (key == "fillet" && RepairsRelief(a) && ReliefReduced(v, "radius", limit))
  }

  /** The outputs are wrong, or a guard fires on a dimension or a feature. */
  ghost predicate SomeGuard(ir: Ir, a: Analysis, round: real -> real)
    requires Repairable(ir) && forall k | k in ir.features :: FeatureNumeric(k, ir.features[k])
  {
    || ir.outputs != REQUIRED_OUTPUTS
    || (ir.partType == "spacer" && BoreReduced(ir.dimensions))
    || (ir.partType == "enclosure_base" && WallReduced(ir.dimensions))
    || exists k | k in ir.features ::
         FeatureGuard(k, ir.features[k], a, HoleSpan(ir.partType, ir.dimensions), ReliefLimit(ir.dimensions), round)
  }

  lemma HoleReportedExactly(hole: map<string, Value>, span: real, round: real -> real)
    requires HoleNumeric(hole)
    ensures HoleChanges(hole, span, round) != [] <==> HoleGuard(hole, span, round)
    ensures HoleMoves(hole, span, round) ==> HoleGuard(hole, span, round)
  {
    HoleMovesExactly(hole, span, round);
  }

  lemma {:induction false} ListReportedExactly(items: seq<Value>, span: real, round: real -> real)
    requires HolesNumeric(Arr(items))
    ensures HoleListChanges(items, span, round) != [] <==>
            exists i | 0 <= i < |items| :: HoleGuard(items[i].fields, span, round)
  {
    hide HoleGuard, HoleChanges;
    if items != [] {
      var last := |items| - 1;
      ListReportedExactly(items[..last], span, round);
      HoleReportedExactly(items[last].fields, span, round);
      assert forall i | 0 <= i < last :: items[..last][i] == items[i];
    }
  }

  lemma HolesReportedExactly(v: Value, span: real, round: real -> real)
    requires HolesNumeric(v)
    ensures HoleFeatureChanges(v, span, round) != [] <==> HolesGuard(v, span, round)
    ensures HolesMove(v, span, round) ==> HolesGuard(v, span, round)
  {
    hide HoleGuard, HoleMoves, HoleChanges, HoleListChanges;
    match v
    case Arr(items) =>
      ListReportedExactly(items, span, round);
      if i :| 0 <= i < |items| && HoleMoves(items[i].fields, span, round) {
        HoleReportedExactly(items[i].fields, span, round);
      }
    case Obj(hole) => HoleReportedExactly(hole, span, round);
    case _ =>
  }

  lemma {:induction false} KeysReportedExactly(
      features: map<string, Value>, keys: seq<string>, span: real, round: real -> real)
    requires FeatureHolesNumeric(features) && forall k | k in keys :: k in HOLE_KEYS
    ensures HoleKeysChanges(features, keys, span, round) != [] <==>
            exists k | k in keys && k in features :: HolesGuard(features[k], span, round)
  {
    hide HolesGuard, HoleFeatureChanges, HolesNumeric;
    if keys != [] {
      var last := keys[|keys| - 1];
      assert keys == keys[..|keys| - 1] + [last];
      KeysReportedExactly(features, keys[..|keys| - 1], span, round);
      if last in features { HolesReportedExactly(features[last], span, round); }
    }
  }

  /** What moves meets a guard. */
  lemma GuardsCoverMoves(key: string, v: Value, a: Analysis, span: real, limit: real, round: real -> real)
    requires FeatureNumeric(key, v)
    ensures FeatureMoves(key, v, a, span, limit, round) ==> FeatureGuard(key, v, a, span, limit, round)
  {
    hide HolesGuard, HolesMove;
    if key in HOLE_KEYS { HolesReportedExactly(v, span, round); }
  }

  /** A repair reports a change exactly when a guard fires, whether or not it changes anything. */
  lemma ReportedExactly(ir: Ir, a: Analysis, round: real -> real)
    requires Repairable(ir)
    ensures forall k | k in ir.features :: FeatureNumeric(k, ir.features[k])
    ensures Changes(ir, a, round) != [NothingChanged] <==> SomeGuard(ir, a, round)
  {
    RepairChangesExactly(ir, a, round);
    var span, limit := HoleSpan(ir.partType, ir.dimensions), ReliefLimit(ir.dimensions);
    hide HoleSpan, ReliefLimit, RepairsHoles, RepairsRelief, BoreReduced, WallReduced;
    KeysReportedExactly(ir.features, HOLE_KEYS, span, round);
    FeaturesReportedExactly(ir, a, span, limit, round);
    hide HoleKeysChanges, HolesGuard, FeatureGuard, ReliefChanges;
    FieldsReported(ir, a, round);
  }

  lemma FeaturesReportedExactly(ir: Ir, a: Analysis, span: real, limit: real, round: real -> real)
    requires Repairable(ir) && forall k | k in ir.features :: FeatureNumeric(k, ir.features[k])
    ensures (exists k | k in ir.features :: FeatureGuard(k, ir.features[k], a, span, limit, round)) <==>
            || (RepairsHoles(a) && exists k | k in HOLE_KEYS && k in ir.features ::
                  HolesGuard(ir.features[k], span, round))
            || (RepairsRelief(a) && ReliefChanges(ir.features, limit) != [])
  {
    hide RepairsHoles, RepairsRelief, HolesGuard, ReliefReduced;
    assert "chamfer" !in HOLE_KEYS && "fillet" !in HOLE_KEYS;
    if "chamfer" in ir.features && RepairsRelief(a) && ReliefReduced(ir.features["chamfer"], "size", limit) {
      assert FeatureGuard("chamfer", ir.features["chamfer"], a, span, limit, round);
    }
    if "fillet" in ir.features && RepairsRelief(a) && ReliefReduced(ir.features["fillet"], "radius", limit) {
      assert FeatureGuard("fillet", ir.features["fillet"], a, span, limit, round);
    }
    if k :| k in HOLE_KEYS && k in ir.features && HolesGuard(ir.features[k], span, round) && RepairsHoles(a) {
      assert FeatureGuard(k, ir.features[k], a, span, limit, round);
    }
  }

  lemma FieldsReported(ir: Ir, a: Analysis, round: real -> real)
    requires Repairable(ir)
    ensures Changes(ir, a, round) != [NothingChanged] <==>
            || ir.outputs != REQUIRED_OUTPUTS
            || (RepairsHoles(a)
                && HoleKeysChanges(ir.features, HOLE_KEYS, HoleSpan(ir.partType, ir.dimensions), round) != [])
            || (RepairsRelief(a) && ReliefChanges(ir.features, ReliefLimit(ir.dimensions)) != [])
            || DimensionChanges(ir.partType, ir.dimensions) != []
  {
    hide HoleSpan, ReliefLimit, HoleKeysChanges, RepairsHoles, RepairsRelief;
    KeysNameChanges(ir.features, HOLE_KEYS, HoleSpan(ir.partType, ir.dimensions), round);
    assert NothingChanged !in FieldChanges(ir, a, round);
  }

  /** The text for no change stands for nothing else. */
  lemma {:induction false} KeysNameChanges(
      features: map<string, Value>, keys: seq<string>, span: real, round: real -> real)
    requires FeatureHolesNumeric(features) && forall k | k in keys :: k in HOLE_KEYS
    ensures NothingChanged !in HoleKeysChanges(features, keys, span, round)
  {
    hide HoleChanges, HolesNumeric;
    if keys != [] {
      var last := keys[|keys| - 1];
      KeysNameChanges(features, keys[..|keys| - 1], span, round);
      if last in features { FeatureNamesChanges(features[last], span, round); }
    }
  }

  lemma FeatureNamesChanges(v: Value, span: real, round: real -> real)
    requires HolesNumeric(v)
    ensures NothingChanged !in HoleFeatureChanges(v, span, round)
  {
    match v
    case Arr(items) => ListNamesChanges(items, span, round);
    case Obj(hole) =>
    case _ =>
  }

  lemma {:induction false} ListNamesChanges(items: seq<Value>, span: real, round: real -> real)
    requires HolesNumeric(Arr(items))
    ensures NothingChanged !in HoleListChanges(items, span, round)
  {
    if items != [] { ListNamesChanges(items[..|items| - 1], span, round); }
  }

  /** No change goes unreported. */
  lemma NoSilentChange(ir: Ir, a: Analysis, round: real -> real)
    requires Repairable(ir) && Changes(ir, a, round) == [NothingChanged]
    ensures Repaired(ir, a, round) == ir
  {
    ReportedExactly(ir, a, round);
    RepairChangesExactly(ir, a, round);
    var span, limit := HoleSpan(ir.partType, ir.dimensions), ReliefLimit(ir.dimensions);
    hide FeatureGuard, FeatureMoves, HoleSpan, ReliefLimit, Changes, Repaired;
    forall k | k in ir.features ensures !FeatureMoves(k, ir.features[k], a, span, limit, round) {
      GuardsCoverMoves(k, ir.features[k], a, span, limit, round);
    }
  }

  // ------------------------------------------------- reported again, without a change

  /**
   * A repaired hole, which the next repair leaves alone, is reported again exactly when rounding put its diameter or
   * the bound its offset was moved to on the wrong side.
   */
  lemma ReportedAgainExactly(hole: map<string, Value>, span: real, round: real -> real)
    requires HoleNumeric(hole) && Settling(round)
    requires Number(Get(hole, "diameter")) > 0.0 && span > 0.0
    ensures var once := RepairedHole(hole, span, round);
            HoleNumeric(once) && RepairedHole(once, span, round) == once
    ensures var once := RepairedHole(hole, span, round);
            var diameter := FirstDiameter(hole, span, round);
            var low, stored := diameter * 0.75, Number(Get(hole, "offset_from_edge"));
            var high := Max(span / 2.0 - low, low);
            HoleChanges(once, span, round) != [] <==>
            && diameter > 0.0
            && (|| diameter > span * 0.3
                || (OffsetOff(stored, low, span) && OffsetOff(round(if stored < low then low else high), low, span)))
  {
    HoleStable(hole, span, round);
    RepairedEntries(hole, span, round);
    var once := RepairedHole(hole, span, round);
    HoleReportedExactly(once, span, round);
    hide RepairedHole, HoleChanges;
    StillFits(hole, once, span, round);
  }

  /** The diameter of a repaired hole is not reduced again to another one. */
  lemma StillFits(hole: map<string, Value>, once: map<string, Value>, span: real, round: real -> real)
    requires HoleNumeric(hole) && HoleNumeric(once)
    requires Number(Get(once, "diameter")) == FirstDiameter(hole, span, round)
    ensures FirstDiameter(once, span, round) == FirstDiameter(hole, span, round)
  {
  }

  /** A part with one hole whose offset is its lower bound, rounded down: nothing changes, and a change is reported. */
  lemma ReportedWithoutChange(ir: Ir, a: Analysis, diameter: real, round: real -> real)
    requires RepairsHoles(a) && !RepairsRelief(a) && ir.outputs == REQUIRED_OUTPUTS
    requires ir.partType != "spacer" && ir.partType != "enclosure_base"
    requires 0.0 < diameter <= HoleSpan(ir.partType, ir.dimensions) * 0.3
    requires 0.0 < round(diameter * 0.75) < diameter * 0.75
    requires ir.features == map["holes" := Obj(RestingHole(diameter, round))]
    ensures Repairable(ir) && Repaired(ir, a, round) == ir && Changes(ir, a, round) == [AdjustedSpacing]
  {
    var span := HoleSpan(ir.partType, ir.dimensions);
    var hole := RestingHole(diameter, round);
    RestingHoleReported(diameter, span, round);
    hide HoleSpan, RepairedHole, HoleChanges, RestingHole;
    OneHoleFeature(ir.features, hole, span, round);
    FeaturesPointwise(ir, a, round);
    assert FeaturesRepaired(ir, a, round) == ir.features;
  }

  /** A hole at the rounding of the lower bound of its offset. */
  function RestingHole(diameter: real, round: real -> real): map<string, Value> {
    map["diameter" := Float(diameter), "offset_from_edge" := Float(round(diameter * 0.75))]
  }

  lemma RestingHoleReported(diameter: real, span: real, round: real -> real)
    requires 0.0 < diameter <= span * 0.3 && 0.0 < round(diameter * 0.75) < diameter * 0.75
    ensures var hole := RestingHole(diameter, round);
            && HoleNumeric(hole) && RepairedHole(hole, span, round) == hole
            && HoleChanges(hole, span, round) == [AdjustedSpacing]
  {
    HoleMovesExactly(RestingHole(diameter, round), span, round);
    hide RepairedHole;
  }

  lemma OneHoleFeature(features: map<string, Value>, hole: map<string, Value>, span: real, round: real -> real)
    requires HoleNumeric(hole) && features == map["holes" := Obj(hole)]
    ensures FeatureHolesNumeric(features)
    ensures HoleKeysChanges(features, HOLE_KEYS, span, round) == HoleChanges(hole, span, round)
  {
    hide HoleChanges;
    HoleKeysDistinct(1);
    HoleKeysDistinct(2);
    assert HOLE_KEYS[0] == "holes" && HOLE_KEYS[1] !in features && HOLE_KEYS[2] !in features;
    assert HOLE_KEYS[..2][..1] == HOLE_KEYS[..1] && HOLE_KEYS[..1][..0] == [];
    assert HoleKeysChanges(features, HOLE_KEYS[..1], span, round) == HoleChanges(hole, span, round);
    assert HoleKeysChanges(features, HOLE_KEYS[..2], span, round) == HoleChanges(hole, span, round);
  }
}
