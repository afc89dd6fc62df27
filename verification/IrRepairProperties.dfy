/** What the repair promises: fixpoints, hole geometry, and a diff that replays. */
module IrRepairProperties {
  import opened Json
  import opened Reals
  import opened CadIr
  import opened IrRepair
  import opened JsonDiff
  import opened Strings

  // --------------------------------------------------------------- fixpoints

  lemma ShrinkStable(hole: map<string, Value>, span: real, round: real -> real)
    requires HoleNumeric(hole)
    ensures HoleNumeric(ShrunkHole(hole, span, round))
    ensures ShrunkHole(ShrunkHole(hole, span, round), span, round) == ShrunkHole(hole, span, round)
    ensures Get(ShrunkHole(hole, span, round), "offset_from_edge") == Get(hole, "offset_from_edge")
  {
  }

  /** Clamping a rounded clamped value and rounding again lands on the same grid point. */
  lemma ClampRoundStable(current: real, diameter: real, span: real, round: real -> real)
    requires Settling(round)
    ensures var stored := round(ClampedOffset(current, diameter, span));
            var again := ClampedOffset(stored, diameter, span);
            again == stored || round(again) == stored
  {
    var low := diameter * 0.75;
    var high := Max(span / 2.0 - diameter * 0.75, low);
    var first := ClampedOffset(current, diameter, span);
    var stored := round(first);
    assert low <= first <= high;
    assert round(low) <= stored <= round(high);
    if stored < low {
      assert round(stored) <= round(low);
    } else if stored > high {
      assert round(high) <= round(stored);
    }
  }

  lemma HoleStable(hole: map<string, Value>, span: real, round: real -> real)
    requires HoleNumeric(hole) && Settling(round)
    ensures HoleNumeric(RepairedHole(hole, span, round))
    ensures RepairedHole(RepairedHole(hole, span, round), span, round) == RepairedHole(hole, span, round)
  {
    ShrinkStable(hole, span, round);
    var shrunk := ShrunkHole(hole, span, round);
    var diameter := Number(Get(shrunk, "diameter"));
    var current := OffsetOr(shrunk, diameter * 0.75);
    ClampRoundStable(current, diameter, span, round);
    var once := RepairedHole(hole, span, round);
    assert Get(once, "diameter") == Get(shrunk, "diameter") || once == hole;
    if Number(Get(hole, "diameter")) > 0.0 && span > 0.0 && diameter > 0.0 {
      var offset := ClampedOffset(current, diameter, span);
      if offset != current {
        var stored := round(offset);
        assert once == shrunk["offset_from_edge" := Float(stored)];
        assert ShrunkHole(once, span, round) == once;
        var again := OffsetOr(once, diameter * 0.75);
        var offset' := ClampedOffset(again, diameter, span);
        if offset' != again {
          assert stored != 0.0;
          assert once["offset_from_edge" := Float(stored)] == once;
        }
      }
    }
  }

  lemma HolesStable(v: Value, span: real, round: real -> real)
    requires HolesNumeric(v) && Settling(round)
    ensures HolesNumeric(RepairedHoles(v, span, round))
    ensures RepairedHoles(RepairedHoles(v, span, round), span, round) == RepairedHoles(v, span, round)
  {
    match v
    case Arr(items) =>
      forall i | 0 <= i < |items|
        ensures HoleNumeric(RepairedHoleItem(items[i], span, round).fields)
        ensures RepairedHoleItem(RepairedHoleItem(items[i], span, round), span, round)
             == RepairedHoleItem(items[i], span, round)
      {
        HoleStable(items[i].fields, span, round);
      }
      var once := RepairedHoles(v, span, round);
      assert RepairedHoles(once, span, round).items == once.items;
    case Obj(hole) => HoleStable(hole, span, round);
    case _ =>
  }

  lemma ReliefStable(v: Value, sizeKey: string, limit: real, round: real -> real)
    requires ReliefNumeric(v, sizeKey)
    ensures ReliefNumeric(RepairedRelief(v, sizeKey, limit, round), sizeKey)
    ensures RepairedRelief(RepairedRelief(v, sizeKey, limit, round), sizeKey, limit, round)
         == RepairedRelief(v, sizeKey, limit, round)
  {
    var once := RepairedRelief(v, sizeKey, limit, round);
    if v.Obj? && once != v {
      assert once.fields[sizeKey := Float(round(limit))] == once.fields;
    }
  }

  /** The entry is one the repair can read, whatever feature it is. */
  predicate FeatureNumeric(key: string, v: Value) {
    && (key in HOLE_KEYS ==> HolesNumeric(v))
    && (key == "chamfer" ==> ReliefNumeric(v, "size"))
    && (key == "fillet" ==> ReliefNumeric(v, "radius"))
  }

  /** What the feature repair does to one feature, whatever the others are. */
  ghost function FeatureRepaired(
      key: string, v: Value, a: Analysis, span: real, limit: real, round: real -> real): Value
    requires FeatureNumeric(key, v)
  {
    if key in HOLE_KEYS then
      if RepairsHoles(a) then RepairedHoles(v, span, round) else v
    else if key == "chamfer" then
      if RepairsRelief(a) then RepairedRelief(v, "size", limit, round) else v
    else if key == "fillet" then
      if RepairsRelief(a) then RepairedRelief(v, "radius", limit, round) else v
    else v
  }

  lemma FeaturesPointwise(ir: Ir, a: Analysis, round: real -> real)
    requires Repairable(ir)
    ensures FeaturesRepaired(ir, a, round).Keys == ir.features.Keys
    ensures forall k | k in ir.features ::
              FeaturesRepaired(ir, a, round)[k]
              == FeatureRepaired(k, ir.features[k], a, HoleSpan(ir.partType, ir.dimensions),
                                 ReliefLimit(ir.dimensions), round)
  {
    assert "chamfer" !in HOLE_KEYS && "fillet" !in HOLE_KEYS;
  }

  lemma FeatureStable(key: string, v: Value, a: Analysis, span: real, limit: real, round: real -> real)
    requires FeatureNumeric(key, v)
    requires Settling(round)
    ensures var once := FeatureRepaired(key, v, a, span, limit, round);
            && FeatureNumeric(key, once)
            && FeatureRepaired(key, once, a, span, limit, round) == once
  {
    if key in HOLE_KEYS {
      HolesStable(v, span, round);
    } else if key == "chamfer" {
      ReliefStable(v, "size", limit, round);
    } else if key == "fillet" {
      ReliefStable(v, "radius", limit, round);
    }
  }

  lemma RepairedRepairable(ir: Ir, a: Analysis, round: real -> real)
    requires Repairable(ir) && Settling(round)
    ensures Repairable(Repaired(ir, a, round))
  {
    FeaturesPointwise(ir, a, round);
    forall k | k in ir.features
      ensures FeatureNumeric(k, FeaturesRepaired(ir, a, round)[k])
    {
      FeatureStable(k, ir.features[k], a, HoleSpan(ir.partType, ir.dimensions), ReliefLimit(ir.dimensions), round);
    }
  }

  lemma DimensionsStable(partType: string, dimensions: map<string, real>, round: real -> real)
    ensures var once := DimensionsRepaired(partType, dimensions, round);
            DimensionsRepaired(partType, once, round) == once
  {
    var once := DimensionsRepaired(partType, dimensions, round);
    if once != dimensions {
      var key := if partType == "spacer" then "inner_diameter" else "wall_thickness";
      assert once[key := once[key]] == once;
      assert forall k | k != key :: Dimension(once, k) == Dimension(dimensions, k);
    }
  }

  // ------------------------------------------- when a second repair does more

  /** A size already at the limit's rounding stays; any other size above the limit moves. */
  predicate ReliefMoves(v: Value, sizeKey: string, limit: real, round: real -> real)
    requires ReliefNumeric(v, sizeKey)
  {
    limit != 0.0 &&
    match v
    case Obj(fields) =>
      Number(Get(fields, sizeKey)) > limit && Get(fields, sizeKey) != Some(Float(round(limit)))
    case Int(_) => Number(Some(v)) > limit
    case Bool(_) => Number(Some(v)) > limit
    case Float(r) => r > limit && r != round(limit)
    case _ => false
  }

  lemma ReliefMovesExactly(v: Value, sizeKey: string, limit: real, round: real -> real)
    requires ReliefNumeric(v, sizeKey)
    ensures RepairedRelief(v, sizeKey, limit, round) != v <==> ReliefMoves(v, sizeKey, limit, round)
  {
    if v.Obj? && Get(v.fields, sizeKey) == Some(Float(round(limit))) {
      assert v.fields[sizeKey := Float(round(limit))] == v.fields;
    }
  }

  /** The diameter is above three tenths of the span and not at a quarter of it. */
  predicate DiameterMoves(hole: map<string, Value>, span: real, round: real -> real)
    requires HoleNumeric(hole)
  {
    Number(Get(hole, "diameter")) > span * 0.3 && Get(hole, "diameter") != Some(Float(round(span * 0.25)))
  }

  /** The offset is too small or too large for the diameter and not at the rounded bound. */
  predicate OffsetMoves(hole: map<string, Value>, span: real, round: real -> real)
    requires HoleNumeric(hole)
  {
    var diameter := Number(Get(hole, "diameter"));
    var low := diameter * 0.75;
    var current, high := OffsetOr(hole, low), Max(span / 2.0 - low, low);
    || (current < low && Get(hole, "offset_from_edge") != Some(Float(round(low))))
    || (current > high && Get(hole, "offset_from_edge") != Some(Float(round(high))))
  }

  predicate HoleMoves(hole: map<string, Value>, span: real, round: real -> real)
    requires HoleNumeric(hole)
  {
    && Number(Get(hole, "diameter")) > 0.0 && span > 0.0
    && (DiameterMoves(hole, span, round) || OffsetMoves(hole, span, round))
  }

  lemma HoleMovesExactly(hole: map<string, Value>, span: real, round: real -> real)
    requires HoleNumeric(hole)
    ensures RepairedHole(hole, span, round) != hole <==> HoleMoves(hole, span, round)
  {
    var shrunk := ShrunkHole(hole, span, round);
    if DiameterMoves(hole, span, round) {
      assert Get(shrunk, "diameter") != Get(hole, "diameter");
      assert Get(RepairedHole(hole, span, round), "diameter") == Get(shrunk, "diameter")
             || RepairedHole(hole, span, round) == hole;
    } else {
      if Number(Get(hole, "diameter")) > span * 0.3 {
        assert hole["diameter" := hole["diameter"]] == hole;
      }
      assert shrunk == hole;
      OffsetMovesExactly(hole, span, round);
    }
  }

  lemma OffsetMovesExactly(hole: map<string, Value>, span: real, round: real -> real)
    requires HoleNumeric(hole)
    ensures var diameter := Number(Get(hole, "diameter"));
            var current := OffsetOr(hole, diameter * 0.75);
            var offset := ClampedOffset(current, diameter, span);
            offset != current && hole["offset_from_edge" := Float(round(offset))] != hole
            <==> OffsetMoves(hole, span, round)
  {
    var diameter := Number(Get(hole, "diameter"));
    var offset := ClampedOffset(OffsetOr(hole, diameter * 0.75), diameter, span);
    var moved := hole["offset_from_edge" := Float(round(offset))];
    if Get(hole, "offset_from_edge") == Some(Float(round(offset))) {
      assert moved == hole;
    } else {
      assert Get(moved, "offset_from_edge") != Get(hole, "offset_from_edge");
    }
  }

  predicate HolesMove(v: Value, span: real, round: real -> real)
    requires HolesNumeric(v)
  {
    match v
    case Arr(items) => exists i | 0 <= i < |items| :: HoleMoves(items[i].fields, span, round)
    case Obj(hole) => HoleMoves(hole, span, round)
    case _ => false
  }

  lemma HolesMoveExactly(v: Value, span: real, round: real -> real)
    requires HolesNumeric(v)
    ensures RepairedHoles(v, span, round) != v <==> HolesMove(v, span, round)
  {
    hide HoleMoves, RepairedHole;
    match v
    case Arr(items) =>
      var after := RepairedHoles(v, span, round);
      forall i | 0 <= i < |items|
        ensures after.items[i] != items[i] <==> HoleMoves(items[i].fields, span, round)
      {
        HoleMovesExactly(items[i].fields, span, round);
      }
      if forall i | 0 <= i < |items| :: after.items[i] == items[i] {
        assert after.items == items;
      }
    case Obj(hole) => HoleMovesExactly(hole, span, round);
    case _ =>
  }

  /** The branch guards by which a repair under this span and relief limit would change one feature. */
  predicate FeatureMoves(key: string, v: Value, a: Analysis, span: real, limit: real, round: real -> real)
    requires FeatureNumeric(key, v)
  {
    || (key in HOLE_KEYS && RepairsHoles(a) && HolesMove(v, span, round))
    || (key == "chamfer" && RepairsRelief(a) && ReliefMoves(v, "size", limit, round))
    || (key == "fillet" && RepairsRelief(a) && ReliefMoves(v, "radius", limit, round))
  }

  lemma FeatureMovesExactly(key: string, v: Value, a: Analysis, span: real, limit: real, round: real -> real)
    requires FeatureNumeric(key, v)
    ensures FeatureRepaired(key, v, a, span, limit, round) != v <==> FeatureMoves(key, v, a, span, limit, round)
  {
    hide HolesMove, ReliefMoves, RepairedHoles, RepairedRelief;
    assert "chamfer" !in HOLE_KEYS && "fillet" !in HOLE_KEYS;
    if key in HOLE_KEYS {
      HolesMoveExactly(v, span, round);
    } else if key == "chamfer" {
      ReliefMovesExactly(v, "size", limit, round);
    } else if key == "fillet" {
      ReliefMovesExactly(v, "radius", limit, round);
    }
  }

  /** Any one repair changes something exactly when outputs, a dimension or a feature has to move. */
  lemma RepairChangesExactly(ir: Ir, a: Analysis, round: real -> real)
    requires Repairable(ir)
    ensures forall k | k in ir.features :: FeatureNumeric(k, ir.features[k])
    ensures Repaired(ir, a, round) == ir <==>
            && ir.outputs == REQUIRED_OUTPUTS
            && DimensionsRepaired(ir.partType, ir.dimensions, round) == ir.dimensions
            && forall k | k in ir.features ::
                 !FeatureMoves(k, ir.features[k], a, HoleSpan(ir.partType, ir.dimensions),
                               ReliefLimit(ir.dimensions), round)
  {
    FeaturesPointwise(ir, a, round);
    hide FeatureMoves, FeatureRepaired, FeaturesRepaired, HoleSpan, ReliefLimit, DimensionsRepaired;
    var after := FeaturesRepaired(ir, a, round);
    forall k | k in ir.features
      ensures FeatureNumeric(k, ir.features[k])
      ensures after[k] != ir.features[k] <==>
              FeatureMoves(k, ir.features[k], a, HoleSpan(ir.partType, ir.dimensions),
                           ReliefLimit(ir.dimensions), round)
    {
      FeatureMovesExactly(k, ir.features[k], a, HoleSpan(ir.partType, ir.dimensions),
                          ReliefLimit(ir.dimensions), round);
    }
    if forall k | k in ir.features :: after[k] == ir.features[k] {
      assert after == ir.features;
    }
  }

  // ------------------------------------- the same, on the entries before any repair

  /** The number a relief entry is judged by; entries of other types are left alone. */
  function ReliefSize(v: Value, sizeKey: string): Option<real>
    requires ReliefNumeric(v, sizeKey)
  {
    match v
    case Obj(fields) => Some(Number(Get(fields, sizeKey)))
    case Int(_) | Float(_) | Bool(_) => Some(Number(Some(v)))
    case _ => None
  }

  /** A size the old limit cut is cut again when its rounding is above the new limit and off that limit's rounding. */
  predicate ReliefMovesAgain(v: Value, sizeKey: string, earlier: real, later: real, round: real -> real)
    requires ReliefNumeric(v, sizeKey)
  {
    var size := ReliefSize(v, sizeKey);
    if earlier != 0.0 && size.Some? && size.value > earlier then
      later != 0.0 && round(earlier) > later && round(earlier) != round(later)
    else
      ReliefMoves(v, sizeKey, later, round)
  }

  lemma ReliefMovesAgainExactly(v: Value, sizeKey: string, earlier: real, later: real, round: real -> real)
    requires ReliefNumeric(v, sizeKey)
    ensures var once := RepairedRelief(v, sizeKey, earlier, round);
            ReliefNumeric(once, sizeKey)
            && (ReliefMoves(once, sizeKey, later, round) <==> ReliefMovesAgain(v, sizeKey, earlier, later, round))
  {
  }

  /** The diameter a hole has after a repair under this span. */
  function FirstDiameter(hole: map<string, Value>, span: real, round: real -> real): real
    requires HoleNumeric(hole)
  {
    var diameter := Number(Get(hole, "diameter"));
    if diameter > span * 0.3 then round(span * 0.25) else diameter
  }

  predicate DiameterMovesAgain(hole: map<string, Value>, earlier: real, later: real, round: real -> real)
    requires HoleNumeric(hole)
  {
    if Number(Get(hole, "diameter")) > earlier * 0.3 then
      round(earlier * 0.25) > later * 0.3 && round(earlier * 0.25) != round(later * 0.25)
    else
      DiameterMoves(hole, later, round)
  }

  /** A stored offset leaves its place when it is outside these bounds and not at the rounding of the one it passed. */
  predicate StoredMoves(stored: real, low: real, high: real, round: real -> real) {
    var current := if stored == 0.0 then low else stored;
    (current < low && stored != round(low)) || (current > high && stored != round(high))
  }

  /** The offset the old span asked for, judged by the new span. */
  predicate OffsetMovesAgain(hole: map<string, Value>, earlier: real, later: real, round: real -> real)
    requires HoleNumeric(hole)
  {
    var low := FirstDiameter(hole, earlier, round) * 0.75;
    var current, earlierHigh, high := OffsetOr(hole, low), Max(earlier / 2.0 - low, low), Max(later / 2.0 - low, low);
    if current < low then StoredMoves(round(low), low, high, round)
    else if current > earlierHigh then StoredMoves(round(earlierHigh), low, high, round)
    else current > high && Get(hole, "offset_from_edge") != Some(Float(round(high)))
  }

  predicate HoleMovesAgain(hole: map<string, Value>, earlier: real, later: real, round: real -> real)
    requires HoleNumeric(hole)
  {
    if Number(Get(hole, "diameter")) <= 0.0 || earlier <= 0.0 then HoleMoves(hole, later, round)
    else
      && FirstDiameter(hole, earlier, round) > 0.0 && later > 0.0
      && (DiameterMovesAgain(hole, earlier, later, round) || OffsetMovesAgain(hole, earlier, later, round))
  }

  /** Both entries a repaired hole has, in terms of its entries before. */
  lemma RepairedEntries(hole: map<string, Value>, span: real, round: real -> real)
    requires HoleNumeric(hole) && Number(Get(hole, "diameter")) > 0.0 && span > 0.0
    ensures var once := RepairedHole(hole, span, round);
            var low := FirstDiameter(hole, span, round) * 0.75;
            var current, high := OffsetOr(hole, low), Max(span / 2.0 - low, low);
            && Get(once, "diameter") == (if Number(Get(hole, "diameter")) > span * 0.3 then
                                           Some(Float(round(span * 0.25)))
                                         else Get(hole, "diameter"))
            && Get(once, "offset_from_edge") == (if current < low then Some(Float(round(low)))
                                                 else if current > high then Some(Float(round(high)))
                                                 else Get(hole, "offset_from_edge"))
  {
  }

  lemma HoleMovesAgainExactly(hole: map<string, Value>, earlier: real, later: real, round: real -> real)
    requires HoleNumeric(hole)
    ensures var once := RepairedHole(hole, earlier, round);
            HoleNumeric(once)
            && (HoleMoves(once, later, round) <==> HoleMovesAgain(hole, earlier, later, round))
  {
    var once := RepairedHole(hole, earlier, round);
    if Number(Get(hole, "diameter")) > 0.0 && earlier > 0.0 {
      RepairedEntries(hole, earlier, round);
      hide RepairedHole;
      DiameterMovesAgainExactly(hole, once, earlier, later, round);
      OffsetMovesAgainExactly(hole, once, earlier, later, round);
    }
  }

  lemma DiameterMovesAgainExactly(
      hole: map<string, Value>, once: map<string, Value>, earlier: real, later: real, round: real -> real)
    requires HoleNumeric(hole) && HoleNumeric(once)
    requires Get(once, "diameter") == (if Number(Get(hole, "diameter")) > earlier * 0.3 then
                                         Some(Float(round(earlier * 0.25)))
                                       else Get(hole, "diameter"))
    ensures Number(Get(once, "diameter")) == FirstDiameter(hole, earlier, round)
    ensures DiameterMoves(once, later, round) <==> DiameterMovesAgain(hole, earlier, later, round)
  {
  }

  lemma OffsetMovesAgainExactly(
      hole: map<string, Value>, once: map<string, Value>, earlier: real, later: real, round: real -> real)
    requires HoleNumeric(hole) && HoleNumeric(once)
    requires Number(Get(once, "diameter")) == FirstDiameter(hole, earlier, round)
    requires var low := FirstDiameter(hole, earlier, round) * 0.75;
             var current, high := OffsetOr(hole, low), Max(earlier / 2.0 - low, low);
             Get(once, "offset_from_edge") == (if current < low then Some(Float(round(low)))
                                               else if current > high then Some(Float(round(high)))
                                               else Get(hole, "offset_from_edge"))
    ensures OffsetMoves(once, later, round) <==> OffsetMovesAgain(hole, earlier, later, round)
  {
    hide FirstDiameter;
  }

  predicate HolesMoveAgain(v: Value, earlier: real, later: real, round: real -> real)
    requires HolesNumeric(v)
  {
    match v
    case Arr(items) => exists i | 0 <= i < |items| :: HoleMovesAgain(items[i].fields, earlier, later, round)
    case Obj(hole) => HoleMovesAgain(hole, earlier, later, round)
    case _ => false
  }

  lemma HolesMoveAgainExactly(v: Value, earlier: real, later: real, round: real -> real)
    requires HolesNumeric(v)
    ensures var once := RepairedHoles(v, earlier, round);
            HolesNumeric(once) && (HolesMove(once, later, round) <==> HolesMoveAgain(v, earlier, later, round))
  {
    hide HoleMoves, HoleMovesAgain, RepairedHole;
    match v
    case Arr(items) =>
      var once := RepairedHoles(v, earlier, round);
      forall i | 0 <= i < |items|
        ensures once.items[i].Obj? && HoleNumeric(once.items[i].fields)
        ensures HoleMoves(once.items[i].fields, later, round) <==>
                HoleMovesAgain(items[i].fields, earlier, later, round)
      {
        HoleMovesAgainExactly(items[i].fields, earlier, later, round);
      }
    case Obj(hole) => HoleMovesAgainExactly(hole, earlier, later, round);
    case _ =>
  }

  /** The span and the edge-relief limit that some dimensions give a part. */
  datatype Measures = Measures(span: real, limit: real)

  ghost function MeasuresOf(partType: string, dimensions: map<string, real>): Measures {
    Measures(HoleSpan(partType, dimensions), ReliefLimit(dimensions))
  }

  /** The guards by which a repair under the new measures changes one feature that was repaired under the old ones. */
  predicate FeatureMovesAgain(
      key: string, v: Value, a: Analysis, earlier: Measures, later: Measures, round: real -> real)
    requires FeatureNumeric(key, v)
  {
    || (key in HOLE_KEYS && RepairsHoles(a) && HolesMoveAgain(v, earlier.span, later.span, round))
    || (key == "chamfer" && RepairsRelief(a) && ReliefMovesAgain(v, "size", earlier.limit, later.limit, round))
    || (key == "fillet" && RepairsRelief(a) && ReliefMovesAgain(v, "radius", earlier.limit, later.limit, round))
  }

  lemma FeatureMovesAgainExactly(
      key: string, v: Value, a: Analysis, earlier: Measures, later: Measures, round: real -> real)
    requires FeatureNumeric(key, v)
    ensures var once := FeatureRepaired(key, v, a, earlier.span, earlier.limit, round);
            FeatureNumeric(key, once)
            && (FeatureMoves(key, once, a, later.span, later.limit, round) <==>
                FeatureMovesAgain(key, v, a, earlier, later, round))
  {
    hide HolesMove, HolesMoveAgain, ReliefMoves, ReliefMovesAgain, RepairedHoles, RepairedRelief, HolesNumeric;
    assert "chamfer" !in HOLE_KEYS && "fillet" !in HOLE_KEYS;
    if key in HOLE_KEYS {
      HolesMoveAgainExactly(v, earlier.span, later.span, round);
    } else if key == "chamfer" {
      ReliefMovesAgainExactly(v, "size", earlier.limit, later.limit, round);
    } else if key == "fillet" {
      ReliefMovesAgainExactly(v, "radius", earlier.limit, later.limit, round);
    }
  }

  /**
   * One repair is a fixpoint exactly when no original feature entry meets a guard of the measures of the original
   * dimensions followed by those of the repaired ones.
   */
  lemma RepairIdempotentExactly(ir: Ir, a: Analysis, round: real -> real)
    requires Repairable(ir) && Settling(round)
    ensures Repairable(Repaired(ir, a, round)) && forall k | k in ir.features :: FeatureNumeric(k, ir.features[k])
    ensures var before := MeasuresOf(ir.partType, ir.dimensions);
            var after := MeasuresOf(ir.partType, DimensionsRepaired(ir.partType, ir.dimensions, round));
            Repaired(Repaired(ir, a, round), a, round) == Repaired(ir, a, round) <==>
            forall k | k in ir.features :: !FeatureMovesAgain(k, ir.features[k], a, before, after, round)
  {
    hide FeatureMoves, FeatureMovesAgain, FeatureRepaired, FeaturesRepaired, HoleSpan, ReliefLimit;
    hide DimensionsRepaired;
    var once := Repaired(ir, a, round);
    var before, after := MeasuresOf(ir.partType, ir.dimensions), MeasuresOf(ir.partType, once.dimensions);
    RepairedRepairable(ir, a, round);
    DimensionsStable(ir.partType, ir.dimensions, round);
    RepairChangesExactly(once, a, round);
    FeaturesPointwise(ir, a, round);
    RepairChangesExactly(ir, a, round);
    forall k | k in ir.features
      ensures FeatureMoves(k, once.features[k], a, after.span, after.limit, round) <==>
              FeatureMovesAgain(k, ir.features[k], a, before, after, round)
    {
      FeatureMovesAgainExactly(k, ir.features[k], a, before, after, round);
    }
  }

  /** When the dimension repair leaves the dimensions alone, one repair is a fixpoint. */
  lemma RepairIdempotent(ir: Ir, a: Analysis, round: real -> real)
    requires Repairable(ir) && Settling(round)
    requires DimensionsRepaired(ir.partType, ir.dimensions, round) == ir.dimensions
    ensures Repairable(Repaired(ir, a, round))
    ensures Repaired(Repaired(ir, a, round), a, round) == Repaired(ir, a, round)
  {
    RepairedRepairable(ir, a, round);
    var once := Repaired(ir, a, round);
    RepairChangesExactly(once, a, round);
    FeaturesPointwise(ir, a, round);
    hide FeatureMoves, FeatureRepaired, FeaturesRepaired, HoleSpan, ReliefLimit;
    var span, limit := HoleSpan(ir.partType, ir.dimensions), ReliefLimit(ir.dimensions);
    forall k | k in once.features ensures !FeatureMoves(k, once.features[k], a, span, limit, round) {
      FeatureStable(k, ir.features[k], a, span, limit, round);
      FeatureMovesExactly(k, once.features[k], a, span, limit, round);
    }
  }

  /** In particular for every part type other than the two whose dimensions are repaired. */
  lemma RepairIdempotentByPartType(ir: Ir, a: Analysis, round: real -> real)
    requires Repairable(ir) && Settling(round)
    requires ir.partType != "spacer" && ir.partType != "enclosure_base"
    ensures Repairable(Repaired(ir, a, round))
    ensures Repaired(Repaired(ir, a, round), a, round) == Repaired(ir, a, round)
  {
    RepairIdempotent(ir, a, round);
  }

  /** For every part type the second repair is a fixpoint. */
  lemma RepairSettlesAfterTwo(ir: Ir, a: Analysis, round: real -> real)
    requires Repairable(ir) && Settling(round)
    ensures Repairable(Repaired(ir, a, round))
    ensures var twice := Repaired(Repaired(ir, a, round), a, round);
            Repairable(twice) && Repaired(twice, a, round) == twice
  {
    RepairedRepairable(ir, a, round);
    DimensionsStable(ir.partType, ir.dimensions, round);
    RepairIdempotent(Repaired(ir, a, round), a, round);
  }

  function Box(wall: real): map<string, real> {
    map["outer_length" := 10.0, "outer_width" := 10.0, "outer_height" := 10.0, "wall_thickness" := wall]
  }

  lemma BoxSmallest(wall: real)
    requires 0.0 < wall < 10.0
    ensures Smallest(Box(wall)) == wall
    ensures WallLimit(Box(wall)) == 5.0
  {
    assert Box(wall)["wall_thickness"] == wall;
    assert forall k | k in Box(wall) :: Box(wall)[k] == 10.0 || Box(wall)[k] == wall;
  }

  /** The bound is tight: thinning an enclosure wall lowers the edge-relief limit of the next repair. */
  lemma OneRepairIsNotEnough(ir: Ir, a: Analysis, round: real -> real)
    requires Rounding(round)
    requires ir.partType == "enclosure_base" && ir.dimensions == Box(6.0)
    requires ir.features == map["fillet" := Float(1.0)]
    requires a.strategy == Some("reduce_size")
    ensures Repairable(ir) && Repairable(Repaired(ir, a, round))
    ensures Repaired(Repaired(ir, a, round), a, round) != Repaired(ir, a, round)
  {
    assert "fillet" !in HOLE_KEYS && "chamfer" !in ir.features;
    BoxSmallest(6.0);
    BoxSmallest(round(1.25));
    BoxThinned(round);
    FilletKept(ir, a, round);
    RepairIdempotentExactly(ir, a, round);
    var once := Repaired(ir, a, round);
    assert "fillet" in once.features;
    hide HoleSpan, Smallest, FeaturesRepaired;
    assert FeatureMoves("fillet", once.features["fillet"], a, HoleSpan(ir.partType, once.dimensions),
                        ReliefLimit(once.dimensions), round);
  }

  lemma BoxThinned(round: real -> real)
    requires Rounding(round)
    ensures DimensionsRepaired("enclosure_base", Box(6.0), round) == Box(round(1.25))
  {
    BoxSmallest(6.0);
    assert Box(6.0)["wall_thickness" := round(1.25)] == Box(round(1.25));
  }

  lemma FilletKept(ir: Ir, a: Analysis, round: real -> real)
    requires Repairable(ir) && ir.dimensions == Box(6.0) && ir.features == map["fillet" := Float(1.0)]
    ensures FeaturesRepaired(ir, a, round) == ir.features
  {
    BoxSmallest(6.0);
    assert "fillet" !in HOLE_KEYS;
    FeaturesPointwise(ir, a, round);
  }

  // ----------------------------------------------------------- hole geometry

  /** `rectangular_corner_points` */
  function CornerPoints(length: real, width: real, offset: real): seq<(real, real)> {
    var x, y := length / 2.0 - offset, width / 2.0 - offset;
    [(-x, -y), (-x, y), (x, -y), (x, y)]
  }

  function Square(x: real): real { x * x }

  ghost predicate InsidePlate(p: (real, real), radius: real, length: real, width: real) {
    -length / 2.0 <= p.0 - radius && p.0 + radius <= length / 2.0
    && -width / 2.0 <= p.1 - radius && p.1 + radius <= width / 2.0
  }

  const HALF_STEP: real := 0.0005

  /**
   * After a repair the hole fits the span exactly when it fitted before or a quarter of the span rounds to something
   * that does, as it does from a span of 0.01; a stored offset keeps its distance from edge and centre line.
   */
  lemma HoleFits(hole: map<string, Value>, span: real, round: real -> real)
    requires HoleNumeric(hole) && Rounding(round) && span > 0.0
    requires Number(Get(hole, "diameter")) > 0.0
    ensures HoleNumeric(RepairedHole(hole, span, round))
    ensures var after := RepairedHole(hole, span, round);
            var d := Number(Get(after, "diameter"));
            var o := Number(Get(after, "offset_from_edge"));
            && (0.0 < d <= span * 0.3 <==>
                Number(Get(hole, "diameter")) <= span * 0.3 || 0.0 < round(span * 0.25) <= span * 0.3)
            && (span >= 0.01 ==> 0.002 <= round(span * 0.25) <= span * 0.3)
            && (Number(Get(hole, "offset_from_edge")) != 0.0 ==>
                  d * 0.75 - HALF_STEP <= o <= Max(span / 2.0 - d * 0.75, d * 0.75) + HALF_STEP)
            && (Number(Get(hole, "offset_from_edge")) == 0.0 ==>
                  Get(after, "offset_from_edge") == Get(hole, "offset_from_edge"))
  {
    HoleNumericKept(hole, span, round);
    ShrinkStable(hole, span, round);
    var shrunk := ShrunkHole(hole, span, round);
    var after := RepairedHole(hole, span, round);
    assert Get(after, "diameter") == Get(shrunk, "diameter");
    var d := Number(Get(shrunk, "diameter"));
    var current := OffsetOr(shrunk, d * 0.75);
    var offset := ClampedOffset(current, d, span);
    if offset != current {
      assert Number(Get(after, "offset_from_edge")) == round(offset);
    }
  }

  lemma HoleNumericKept(hole: map<string, Value>, span: real, round: real -> real)
    requires HoleNumeric(hole)
    ensures HoleNumeric(RepairedHole(hole, span, round))
  {
  }

  /** The stored offset ends in range exactly when it was neither missing nor zero, or the hole is a pinprick. */
  lemma ZeroOffsetEscapes(hole: map<string, Value>, span: real, round: real -> real)
    requires HoleNumeric(hole) && Rounding(round) && span > 0.0
    requires Number(Get(hole, "diameter")) > 0.0
    ensures HoleNumeric(RepairedHole(hole, span, round))
    ensures var after := RepairedHole(hole, span, round);
            var d := Number(Get(after, "diameter"));
            var o := Number(Get(after, "offset_from_edge"));
            d * 0.75 - HALF_STEP <= o <= Max(span / 2.0 - d * 0.75, d * 0.75) + HALF_STEP
            <==> Number(Get(hole, "offset_from_edge")) != 0.0 || d * 0.75 <= HALF_STEP
  {
    HoleFits(hole, span, round);
    ShrinkStable(hole, span, round);
    assert Get(RepairedHole(hole, span, round), "diameter") == Get(ShrunkHole(hole, span, round), "diameter");
    assert round(span * 0.25) >= -HALF_STEP;
  }

  lemma CornersApart(length: real, width: real, offset: real, apart: real)
    requires 0.0 <= apart && offset <= length / 2.0 - apart / 2.0 && offset <= width / 2.0 - apart / 2.0
    ensures var p := CornerPoints(length, width, offset);
            forall i, j | 0 <= i < j < 4 ::
              Square(p[i].0 - p[j].0) + Square(p[i].1 - p[j].1) >= Square(apart)
  {
    var x, y := length / 2.0 - offset, width / 2.0 - offset;
    SquareMonotone(apart, 2.0 * x);
    SquareMonotone(apart, 2.0 * y);
    assert Square(-2.0 * x) == Square(2.0 * x) && Square(-2.0 * y) == Square(2.0 * y);
    assert Square(2.0 * x) >= 0.0 && Square(2.0 * y) >= 0.0 && Square(0.0) == 0.0;
  }

  lemma SquareMonotone(x: real, y: real)
    requires 0.0 <= x <= y
    ensures Square(x) <= Square(y)
  {
    assert x * x <= x * y <= y * y;
  }

  /** Four corner holes lie inside a plate exactly when the offset leaves room for the radius on both sides. */
  lemma CornersInsideExactly(length: real, width: real, offset: real, radius: real)
    ensures var corners := CornerPoints(length, width, offset);
            (forall i | 0 <= i < 4 :: InsidePlate(corners[i], radius, length, width)) <==>
            radius <= offset <= Min(length, width) - radius
  {
    var corners := CornerPoints(length, width, offset);
    var x, y := length / 2.0 - offset, width / 2.0 - offset;
    assert corners[0] == (-x, -y) && corners[1] == (-x, y) && corners[2] == (x, -y) && corners[3] == (x, y);
    assert InsidePlate(corners[0], radius, length, width) && InsidePlate(corners[3], radius, length, width) ==>
             radius <= offset <= Min(length, width) - radius;
  }

  /**
   * On plates with a stored offset the four repaired corner holes lie inside exactly when the offset leaves room, as
   * it does for a fitting diameter of at least 0.002, whose holes then stay 1.5 d apart.
   */
  lemma RepairedCornerHoles(partType: string, dimensions: map<string, real>, hole: map<string, Value>,
                            round: real -> real)
    requires partType == "mounting_plate" || partType == "enclosure_lid"
    requires HoleNumeric(hole) && Rounding(round) && HoleSpan(partType, dimensions) > 0.0
    requires Number(Get(hole, "diameter")) > 0.0 && Number(Get(hole, "offset_from_edge")) != 0.0
    ensures HoleNumeric(RepairedHole(hole, HoleSpan(partType, dimensions), round))
    ensures var span := HoleSpan(partType, dimensions);
            var after := RepairedHole(hole, span, round);
            var d, o := Number(Get(after, "diameter")), Number(Get(after, "offset_from_edge"));
            var length, width := Dimension(dimensions, "length"), Dimension(dimensions, "width");
            var corners := CornerPoints(length, width, o);
            && ((forall i | 0 <= i < 4 :: InsidePlate(corners[i], d / 2.0, length, width)) <==>
                d / 2.0 <= o <= span - d / 2.0)
            && (0.002 <= d <= span * 0.3 ==>
                  && d / 2.0 <= o <= span - d / 2.0
                  && forall i, j | 0 <= i < j < 4 ::
                       Square(corners[i].0 - corners[j].0) + Square(corners[i].1 - corners[j].1)
                       >= Square(d * 1.5 - 2.0 * HALF_STEP))
  {
    var span := HoleSpan(partType, dimensions);
    HoleFits(hole, span, round);
    var after := RepairedHole(hole, span, round);
    var d, o := Number(Get(after, "diameter")), Number(Get(after, "offset_from_edge"));
    var length, width := Dimension(dimensions, "length"), Dimension(dimensions, "width");
    hide Square, CornerPoints, RepairedHole, InsidePlate;
    CornersInsideExactly(length, width, o, d / 2.0);
    if 0.002 <= d <= span * 0.3 {
      CornersApart(length, width, o, d * 1.5 - 2.0 * HALF_STEP);
    }
  }

  /** The dimension repairs reach their purpose: a real bore and a real cavity. */
  lemma RepairedDimensionsFit(dimensions: map<string, real>, round: real -> real)
    requires Rounding(round)
    ensures Dimension(dimensions, "outer_diameter") >= 0.01 ==>
              Dimension(SpacerRepaired(dimensions, round), "inner_diameter")
              < Dimension(SpacerRepaired(dimensions, round), "outer_diameter")
    ensures WallLimit(dimensions) >= 0.005 ==>
              Dimension(EnclosureRepaired(dimensions, round), "wall_thickness")
              < WallLimit(EnclosureRepaired(dimensions, round))
  {
  }

  // ------------------------------------------------ the reported diff replays

  lemma {:induction false} ReplayableSelf(v: Value)
    ensures Replayable(v, v)
    decreases v
  {
    if v.Obj? {
      forall k | k in v.fields ensures FieldSafe(v, v, k) { ReplayableSelf(v.fields[k]); }
    } else if v.Arr? {
      forall i | 0 <= i < |v.items| ensures ItemSafe(v, v, i) { ReplayableSelf(v.items[i]); }
    }
  }

  /** Both directions at once: the two values hold null at exactly the same places. */
  ghost predicate Exchangeable(v: Value, w: Value) {
    (v == Null <==> w == Null) && Replayable(v, w) && Replayable(w, v)
  }

  lemma ExchangeableObjects(v: Value, w: Value)
    requires v.Obj? && w.Obj? && v.fields.Keys == w.fields.Keys
    requires forall k | k in v.fields :: v.fields[k] == w.fields[k] || Exchangeable(v.fields[k], w.fields[k])
    ensures Exchangeable(v, w)
  {
    forall k | k in v.fields ensures FieldSafe(v, w, k) && FieldSafe(w, v, k) {
      ReplayableSelf(v.fields[k]);
    }
  }

  lemma ExchangeableArrays(v: Value, w: Value)
    requires v.Arr? && w.Arr? && |v.items| == |w.items|
    requires forall i | 0 <= i < |v.items| :: Exchangeable(v.items[i], w.items[i])
    ensures Exchangeable(v, w)
  {
    forall i | 0 <= i < |v.items| ensures ItemSafe(v, w, i) && ItemSafe(w, v, i) {
      assert Exchangeable(v.items[i], w.items[i]);
    }
  }

  lemma HoleExchangeable(hole: map<string, Value>, span: real, round: real -> real)
    requires HoleNumeric(hole)
    ensures RepairedHole(hole, span, round).Keys == hole.Keys
    ensures forall k | k in hole && hole[k] == Null :: RepairedHole(hole, span, round)[k] == Null
    ensures Exchangeable(Obj(hole), Obj(RepairedHole(hole, span, round)))
  {
    var shrunk, after := ShrunkHole(hole, span, round), RepairedHole(hole, span, round);
    ShrinkStable(hole, span, round);
    if after == hole {
      ReplayableSelf(Obj(hole));
    } else {
      assert shrunk.Keys == hole.Keys;
      assert after != shrunk ==> Number(Get(shrunk, "offset_from_edge")) != 0.0;
      forall k | k in hole && hole[k] != after[k] ensures Exchangeable(hole[k], after[k]) {
        assert k == "diameter" || k == "offset_from_edge";
      }
      ExchangeableObjects(Obj(hole), Obj(after));
    }
  }

  lemma HolesExchangeable(v: Value, span: real, round: real -> real)
    requires HolesNumeric(v)
    ensures Exchangeable(v, RepairedHoles(v, span, round))
  {
    match v
    case Arr(items) =>
      var after := RepairedHoles(v, span, round);
      forall i | 0 <= i < |items| ensures Exchangeable(items[i], after.items[i]) {
        HoleExchangeable(items[i].fields, span, round);
      }
      ExchangeableArrays(v, after);
    case Obj(hole) => HoleExchangeable(hole, span, round);
    case _ => ReplayableSelf(v);
  }

  lemma ReliefExchangeable(v: Value, sizeKey: string, limit: real, round: real -> real)
    requires ReliefNumeric(v, sizeKey) && limit >= 0.0
    ensures Exchangeable(v, RepairedRelief(v, sizeKey, limit, round))
  {
    var after := RepairedRelief(v, sizeKey, limit, round);
    if after == v {
      ReplayableSelf(v);
    } else if v.Obj? {
      assert sizeKey in v.fields;
      ExchangeableObjects(v, after);
    }
  }

  lemma FeaturesExchangeable(ir: Ir, a: Analysis, round: real -> real)
    requires Repairable(ir)
    ensures Exchangeable(Obj(ir.features), Obj(FeaturesRepaired(ir, a, round)))
  {
    FeaturesPointwise(ir, a, round);
    var after := FeaturesRepaired(ir, a, round);
    var span, limit := HoleSpan(ir.partType, ir.dimensions), ReliefLimit(ir.dimensions);
    forall k | k in ir.features && ir.features[k] != after[k] ensures Exchangeable(ir.features[k], after[k]) {
      if k in HOLE_KEYS {
        HolesExchangeable(ir.features[k], span, round);
      } else if k == "chamfer" {
        ReliefExchangeable(ir.features[k], "size", limit, round);
      } else {
        ReliefExchangeable(ir.features[k], "radius", limit, round);
      }
    }
    ExchangeableObjects(Obj(ir.features), Obj(after));
  }

  lemma TextsExchangeable(x: seq<string>, y: seq<string>)
    ensures Replayable(TextsValue(x), TextsValue(y))
  {
    var v, w := TextsValue(x), TextsValue(y);
    forall i | 0 <= i < |w.items| ensures ItemSafe(v, w, i) { }
  }

  lemma DimensionsExchangeable(partType: string, dimensions: map<string, real>, round: real -> real)
    requires Rounding(round)
    ensures Exchangeable(DimensionsValue(dimensions), DimensionsValue(DimensionsRepaired(partType, dimensions, round)))
  {
    var v := DimensionsValue(dimensions);
    var w := DimensionsValue(DimensionsRepaired(partType, dimensions, round));
    assert v.fields.Keys == w.fields.Keys;
    forall k | k in v.fields ensures Exchangeable(v.fields[k], w.fields[k]) { }
    ExchangeableObjects(v, w);
  }

  ghost predicate EqualOrExchangeable(m: map<string, Value>, n: map<string, Value>) {
    m.Keys == n.Keys && forall k | k in m :: m[k] == n[k] || Exchangeable(m[k], n[k])
  }

  lemma UpdateExchangeable(m: map<string, Value>, n: map<string, Value>, k: string, v: Value)
    requires EqualOrExchangeable(m, n) && k in m && m[k] == n[k]
    requires Exchangeable(m[k], v)
    ensures EqualOrExchangeable(m, n[k := v])
  {
  }

  lemma CoreFieldsAfterRepair(ir: Ir, a: Analysis, round: real -> real)
    requires Repairable(ir)
    ensures CoreFields(Repaired(ir, a, round))
         == CoreFields(ir)["dimensions" := DimensionsValue(DimensionsRepaired(ir.partType, ir.dimensions, round))]
                          ["features" := Obj(FeaturesRepaired(ir, a, round))]
                          ["outputs" := TextsValue(REQUIRED_OUTPUTS)]
  {
  }

  lemma CoreExchangeable(ir: Ir, a: Analysis, round: real -> real)
    requires Repairable(ir) && Rounding(round)
    ensures EqualOrExchangeable(CoreFields(ir), CoreFields(Repaired(ir, a, round)))
  {
    var core := CoreFields(ir);
    var dimensions := DimensionsValue(DimensionsRepaired(ir.partType, ir.dimensions, round));
    var features := Obj(FeaturesRepaired(ir, a, round));
    FeaturesExchangeable(ir, a, round);
    DimensionsExchangeable(ir.partType, ir.dimensions, round);
    TextsExchangeable(ir.outputs, REQUIRED_OUTPUTS);
    TextsExchangeable(REQUIRED_OUTPUTS, ir.outputs);
    UpdateExchangeable(core, core, "dimensions", dimensions);
    UpdateExchangeable(core, core["dimensions" := dimensions], "features", features);
    UpdateExchangeable(core, core["dimensions" := dimensions]["features" := features], "outputs",
                       TextsValue(REQUIRED_OUTPUTS));
    CoreFieldsAfterRepair(ir, a, round);
  }

  lemma OptionalFieldsUntouched(m: map<string, Value>, n: map<string, Value>, optional: map<string, Value>)
    requires EqualOrExchangeable(m, n)
    ensures Exchangeable(Obj(m + optional), Obj(n + optional))
  {
    ExchangeableObjects(Obj(m + optional), Obj(n + optional));
  }

  /** Replaying the reported diff on the original gives the repaired IR, and undoing it the original. */
  lemma RepairDiffReplays(ir: Ir, a: Analysis, round: real -> real)
    requires Repairable(ir) && Rounding(round)
    ensures var before, after := ToDict(ir), ToDict(Repaired(ir, a, round));
            && Replay(before, Diff(before, after)) == after
            && Replay(after, Swapped(Diff(before, after))) == before
  {
    CoreExchangeable(ir, a, round);
    OptionalFieldsUntouched(CoreFields(ir), CoreFields(Repaired(ir, a, round)), OptionalFields(ir));
    ReplayRoundTrip(ToDict(ir), ToDict(Repaired(ir, a, round)));
    ReverseRoundTrip(ToDict(ir), ToDict(Repaired(ir, a, round)));
  }

  // --------------------------------------------------------- actual rounding

  function NearestEven(x: real): int {
    var low := x.Floor;
    var rest := x - low as real;
    if rest < 0.5 || (rest == 0.5 && low % 2 == 0) then low else low + 1
  }

  /** Round half to even at three decimals, the decimal rounding Python's `round` performs. */
  function RoundHalfEven(x: real): real {
    NearestEven(x * 1000.0) as real / 1000.0
  }

  lemma NearestEvenMonotone(x: real, y: real)
    requires x <= y
    ensures NearestEven(x) <= NearestEven(y)
  {
    assert x.Floor <= y.Floor;
    if x.Floor == y.Floor {
      assert x - x.Floor as real <= y - y.Floor as real;
    }
  }

  lemma NearestEvenFixesIntegers(n: int)
    ensures NearestEven(n as real) == n
  {
    assert (n as real).Floor == n;
  }

  lemma RoundHalfEvenIsRounding()
    ensures Rounding(RoundHalfEven)
  {
    forall x, y: real | x <= y ensures RoundHalfEven(x) <= RoundHalfEven(y) {
      NearestEvenMonotone(x * 1000.0, y * 1000.0);
    }
    forall x: real ensures RoundHalfEven(RoundHalfEven(x)) == RoundHalfEven(x) {
      NearestEvenFixesIntegers(NearestEven(x * 1000.0));
      assert RoundHalfEven(x) * 1000.0 == NearestEven(x * 1000.0) as real;
    }
  }
}
