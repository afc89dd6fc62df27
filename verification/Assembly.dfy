/** Bounding-box checking of an assembly: contacts, overlaps, clearances and floating parts. */
module Assembly {
  import opened Json
  import opened Reals

  datatype Axis = X | Y | Z

  datatype BBox = BBox(xmin: real, xmax: real, ymin: real, ymax: real, zmin: real, zmax: real)
  {
    function Lo(axis: Axis): real {
      match axis case X => xmin case Y => ymin case Z => zmin
    }

    function Hi(axis: Axis): real {
      match axis case X => xmax case Y => ymax case Z => zmax
    }

    function Translated(dx: real, dy: real, dz: real): BBox {
      BBox(xmin + dx, xmax + dx, ymin + dy, ymax + dy, zmin + dz, zmax + dz)
    }
  }

  datatype Part = Part(name: string, bbox: BBox)

  function Abs(x: real): real { if x < 0.0 then -x else x }

  // --------------------------------------------------------- pairs of boxes

  /** Signed depth of the common interval on one axis. */
  function Depth(a: BBox, b: BBox, axis: Axis): real {
    Min(a.Hi(axis), b.Hi(axis)) - Max(a.Lo(axis), b.Lo(axis))
  }

  function AxisFaceGap(a: BBox, b: BBox, axis: Axis): real {
    Min(Abs(a.Hi(axis) - b.Lo(axis)), Abs(b.Hi(axis) - a.Lo(axis)))
  }

  predicate ProjectedOverlap(a: BBox, b: BBox, contactAxis: Axis) {
    && (contactAxis != X ==> Depth(a, b, X) > 0.0)
    && (contactAxis != Y ==> Depth(a, b, Y) > 0.0)
    && (contactAxis != Z ==> Depth(a, b, Z) > 0.0)
  }

  predicate TouchesOn(a: BBox, b: BBox, tolerance: real, axis: Axis) {
    AxisFaceGap(a, b, axis) <= tolerance && ProjectedOverlap(a, b, axis)
  }

  /** The first axis, in the order x, y, z, on which the boxes touch. */
  function ContactAxis(a: BBox, b: BBox, tolerance: real): Option<Axis> {
    if TouchesOn(a, b, tolerance, X) then Some(X)
    else if TouchesOn(a, b, tolerance, Y) then Some(Y)
    else if TouchesOn(a, b, tolerance, Z) then Some(Z)
    else None
  }

  function CommonLength(a: BBox, b: BBox, axis: Axis): (r: real)
    ensures r >= 0.0
  {
    Max(0.0, Depth(a, b, axis))
  }

  function Volume(dx: real, dy: real, dz: real): real { dx * dy * dz }

  function OverlapVolume(a: BBox, b: BBox): real {
    Volume(CommonLength(a, b, X), CommonLength(a, b, Y), CommonLength(a, b, Z))
  }

  function Separation(a: BBox, b: BBox, axis: Axis): Option<real> {
    if a.Hi(axis) < b.Lo(axis) then Some(b.Lo(axis) - a.Hi(axis))
    else if b.Hi(axis) < a.Lo(axis) then Some(a.Lo(axis) - b.Hi(axis))
    else None
  }

  function Smaller(x: Option<real>, y: Option<real>): Option<real> {
    if x.None? then y else if y.None? then x else Some(Min(x.value, y.value))
  }

  /** The smallest separation over the separated axes, 0 when no axis is separated. */
  function MinimumAxisGap(a: BBox, b: BBox): real {
    var gap := Smaller(Smaller(Separation(a, b, X), Separation(a, b, Y)), Separation(a, b, Z));
    if gap.None? then 0.0 else gap.value
  }

  // ----------------------------------------------------------- allowed pairs

  datatype Rule = Rule(part1: string, part2: string)

  /** `fnmatch` is a parameter: does a name match a pattern. */
  type Glob = (string, string) -> bool

  predicate RuleCovers(rule: Rule, part1: string, part2: string, matches: Glob) {
    || (matches(part1, rule.part1) && matches(part2, rule.part2))
    || (matches(part1, rule.part2) && matches(part2, rule.part1))
  }

  predicate PairAllowed(part1: string, part2: string, rules: seq<Rule>, matches: Glob) {
    exists i | 0 <= i < |rules| :: RuleCovers(rules[i], part1, part2, matches)
  }

  // ----------------------------------------------------------------- findings

  /** `round` is the rounding of reported figures to three decimals. */
  datatype Settings = Settings(
    allowedOverlaps: seq<Rule>, allowedClearances: seq<Rule>,
    contactTolerance: real, minClearance: real, matches: Glob, round: real -> real)

  datatype Finding =
    | Contact(part1: string, part2: string, axis: Axis, gap: real)
    | Interference(part1: string, part2: string, volume: real)
    | CloseClearance(part1: string, part2: string, gap: real)

  /** What one visit of the pair loop records. */
  function PairFindings(a: Part, b: Part, s: Settings): seq<Finding> {
    var touch := ContactAxis(a.bbox, b.bbox, s.contactTolerance);
    if touch.Some? then
      [Contact(a.name, b.name, touch.value, s.round(AxisFaceGap(a.bbox, b.bbox, touch.value)))]
    else
      var overlap, gap := OverlapVolume(a.bbox, b.bbox), MinimumAxisGap(a.bbox, b.bbox);
      (if overlap > 0.0 && !PairAllowed(a.name, b.name, s.allowedOverlaps, s.matches)
       then [Interference(a.name, b.name, s.round(overlap))] else [])
      + (if 0.0 < gap < s.minClearance && !PairAllowed(a.name, b.name, s.allowedClearances, s.matches)
         then [CloseClearance(a.name, b.name, s.round(gap))] else [])
  }

  /** Everything recorded before the pair loop reaches positions i and j. */
  function FindingsBefore(parts: seq<Part>, i: nat, j: nat, s: Settings): seq<Finding>
    requires i < j <= |parts| || (i == |parts| && j == i + 1)
    decreases i, j
  {
    if j > i + 1 then FindingsBefore(parts, i, j - 1, s) + PairFindings(parts[i], parts[j - 1], s)
    else if i > 0 then FindingsBefore(parts, i - 1, |parts|, s)
    else []
  }

  function AllFindings(parts: seq<Part>, s: Settings): seq<Finding> {
    FindingsBefore(parts, |parts|, |parts| + 1, s)
  }

  lemma ConcatAssociative<T>(x: seq<T>, y: seq<T>, z: seq<T>)
    ensures x + (y + z) == (x + y) + z
  {
  }

  function ContactNames(findings: seq<Finding>): set<string> {
    (set f | f in findings && f.Contact? :: f.part1) + (set f | f in findings && f.Contact? :: f.part2)
  }

  function FloatingNames(parts: seq<Part>, anchors: set<string>, contacted: set<string>): seq<string> {
    if parts == [] then []
    else
      var last := parts[|parts| - 1].name;
      FloatingNames(parts[..|parts| - 1], anchors, contacted)
      + if last in anchors || last in contacted then [] else [last]
  }

  datatype Status = Success | Warning | Failed

  datatype Summary = Summary(status: Status, errors: nat, warnings: nat, checks: nat)

  /** Every finding but a contact is recorded as a warning. */
  function WarningCount(findings: seq<Finding>): nat {
    if findings == [] then 0
    else WarningCount(findings[..|findings| - 1]) + (if findings[|findings| - 1].Contact? then 0 else 1)
  }

  /** `_summary`: an error for each floating part, and the warnings. */
  function SummaryOf(findings: seq<Finding>, floating: seq<string>): Summary {
    var errors, warnings := |floating|, WarningCount(findings);
    Summary(if errors > 0 then Failed else if warnings > 0 then Warning else Success, errors, warnings,
            errors + warnings)
  }

  // --------------------------------------------------- the checks, step by step

  /** The result dictionary the checks append to; findings stand for its contact, interference and warning lists. */
  class Result {
    var findings: seq<Finding>
    var floating: seq<string>

    constructor ()
      ensures findings == [] && floating == []
    {
      findings, floating := [], [];
    }

    method CheckPair(a: Part, b: Part, s: Settings)
      modifies this`findings
      ensures findings == old(findings) + PairFindings(a, b, s)
    {
      var touch := ContactAxis(a.bbox, b.bbox, s.contactTolerance);
      if touch.Some? {
        var gap := s.round(AxisFaceGap(a.bbox, b.bbox, touch.value));
        findings := findings + [Contact(a.name, b.name, touch.value, gap)];
        return;
      }
      var overlap := OverlapVolume(a.bbox, b.bbox);
      if overlap > 0.0 && !PairAllowed(a.name, b.name, s.allowedOverlaps, s.matches) {
        findings := findings + [Interference(a.name, b.name, s.round(overlap))];
      }
      var gap := MinimumAxisGap(a.bbox, b.bbox);
      if 0.0 < gap < s.minClearance && !PairAllowed(a.name, b.name, s.allowedClearances, s.matches) {
        findings := findings + [CloseClearance(a.name, b.name, s.round(gap))];
      }
    }

    /** The inner loop: one part against every later part. */
    method CheckAgainstLater(parts: seq<Part>, i: nat, s: Settings, ghost start: seq<Finding>)
      requires i < |parts|
      requires findings == start + FindingsBefore(parts, i, i + 1, s)
      modifies this`findings
      ensures findings == start + FindingsBefore(parts, i, |parts|, s)
    {
      hide PairFindings;
      for j := i + 1 to |parts|
        invariant findings == start + FindingsBefore(parts, i, j, s)
      {
        ConcatAssociative(start, FindingsBefore(parts, i, j, s), PairFindings(parts[i], parts[j], s));
        CheckPair(parts[i], parts[j], s);
      }
    }

    method CheckBboxRelationships(parts: seq<Part>, s: Settings)
      modifies this`findings
      ensures findings == old(findings) + AllFindings(parts, s)
    {
      ghost var start := findings;
      for i := 0 to |parts|
        invariant findings == start + FindingsBefore(parts, i, i + 1, s)
      {
        CheckAgainstLater(parts, i, s, start);
      }
    }

    /** Without explicit anchors the first part becomes the anchor. */
    method CheckFloatingParts(parts: seq<Part>, anchors: set<string>) returns (used: set<string>)
      modifies this`floating
      ensures used == if anchors == {} && parts != [] then {parts[0].name} else anchors
      ensures floating == old(floating) + FloatingNames(parts, used, ContactNames(findings))
    {
      var contacted: set<string> := {};
      for n := 0 to |findings|
        invariant contacted == ContactNames(findings[..n])
      {
        assert findings[..n + 1] == findings[..n] + [findings[n]];
        if findings[n].Contact? {
          contacted := contacted + {findings[n].part1, findings[n].part2};
        }
      }
      assert findings[..|findings|] == findings;
      used := anchors;
      if anchors == {} && parts != [] {
        used := used + {parts[0].name};
      }
      for n := 0 to |parts|
        invariant floating == old(floating) + FloatingNames(parts[..n], used, contacted)
      {
        assert parts[..n + 1][..n] == parts[..n];
        if parts[n].name !in used && parts[n].name !in contacted {
          floating := floating + [parts[n].name];
        }
      }
      assert parts[..|parts|] == parts;
    }
  }

  /** `validate_placement_relationships` on a fresh result. */
  method ValidatePlacement(parts: seq<Part>, s: Settings, anchors: set<string>)
    returns (result: Result, summary: Summary)
    ensures result.findings == AllFindings(parts, s)
    ensures result.floating
         == FloatingNames(parts, if anchors == {} && parts != [] then {parts[0].name} else anchors,
                          ContactNames(result.findings))
    ensures summary == SummaryOf(result.findings, result.floating)
  {
    result := new Result();
    result.CheckBboxRelationships(parts, s);
    var used := result.CheckFloatingParts(parts, anchors);
    summary := SummaryOf(result.findings, result.floating);
  }
}
