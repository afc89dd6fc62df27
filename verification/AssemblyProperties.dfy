/** Geometry behind the assembly findings, and what they do not depend on. */
module AssemblyProperties {
  import opened Json
  import opened Reals
  import opened Assembly

  // ---------------------------------------------------------------- geometry

  lemma SymmetricPair(a: BBox, b: BBox, tolerance: real)
    ensures forall axis :: AxisFaceGap(a, b, axis) == AxisFaceGap(b, a, axis)
    ensures ContactAxis(a, b, tolerance) == ContactAxis(b, a, tolerance)
    ensures OverlapVolume(a, b) == OverlapVolume(b, a)
  {
    assert forall axis :: Depth(a, b, axis) == Depth(b, a, axis);
  }

  ghost predicate Upright(a: BBox) {
    forall axis: Axis :: a.Lo(axis) <= a.Hi(axis)
  }

  /** Each box lies below the other on this axis, which takes extents given in the wrong order. */
  predicate Crossed(a: BBox, b: BBox, axis: Axis) {
    a.Hi(axis) < b.Lo(axis) && b.Hi(axis) < a.Lo(axis)
  }

  /** The separation on an axis depends on the order of the boxes exactly when they cross by different lengths. */
  lemma SeparationSymmetricExactly(a: BBox, b: BBox, axis: Axis)
    ensures Separation(a, b, axis) == Separation(b, a, axis) <==>
            Crossed(a, b, axis) ==> b.Lo(axis) - a.Hi(axis) == a.Lo(axis) - b.Hi(axis)
    ensures Upright(a) && Upright(b) ==> !Crossed(a, b, axis)
  {
  }

  lemma SymmetricGap(a: BBox, b: BBox)
    requires Upright(a) && Upright(b)
    ensures MinimumAxisGap(a, b) == MinimumAxisGap(b, a)
  {
    hide Separation;
    SeparationSymmetricExactly(a, b, X);
    SeparationSymmetricExactly(a, b, Y);
    SeparationSymmetricExactly(a, b, Z);
  }

  /** With inverted extents, which are accepted, the clearance found depends on which part is listed first. */
  lemma InvertedGapDependsOnOrder()
    ensures var a, b := BBox(5.0, 0.0, 0.0, 1.0, 0.0, 1.0), BBox(1.0, 2.0, 0.0, 1.0, 0.0, 1.0);
            MinimumAxisGap(a, b) == 1.0 && MinimumAxisGap(b, a) == 3.0
  {
  }

  /** Boxes in contact interpenetrate by at most the tolerance along the contact axis. */
  lemma ContactDepthBounded(a: BBox, b: BBox, tolerance: real)
    requires ContactAxis(a, b, tolerance).Some?
    ensures 0.0 <= CommonLength(a, b, ContactAxis(a, b, tolerance).value) <= tolerance
  {
  }

  function Area(dx: real, dy: real): real { dx * dy }

  /** Area of the common projection of two boxes along an axis. */
  function ProjectedArea(a: BBox, b: BBox, axis: Axis): real {
    match axis
    case X => Area(CommonLength(a, b, Y), CommonLength(a, b, Z))
    case Y => Area(CommonLength(a, b, X), CommonLength(a, b, Z))
    case Z => Area(CommonLength(a, b, X), CommonLength(a, b, Y))
  }

  lemma ThinVolume(x: real, y: real, z: real, bound: real)
    requires x >= 0.0 && y >= 0.0 && z >= 0.0
    ensures x <= bound ==> Volume(x, y, z) <= bound * Area(y, z)
    ensures y <= bound ==> Volume(x, y, z) <= bound * Area(x, z)
    ensures z <= bound ==> Volume(x, y, z) <= bound * Area(x, y)
  {
    Scaled(x, bound, y, z);
    Scaled(y, bound, x, z);
    Scaled(z, bound, x, y);
  }

  lemma Scaled(x: real, bound: real, p: real, q: real)
    requires p >= 0.0 && q >= 0.0
    ensures x <= bound ==> x * p * q <= bound * Area(p, q)
    ensures x <= bound ==> p * x * q <= bound * Area(p, q) && p * q * x <= bound * Area(p, q)
  {
    assert p * q >= 0.0;
    assert x <= bound ==> x * (p * q) <= bound * (p * q);
    assert x * p * q == x * (p * q) == p * x * q == p * q * x;
  }

  /** The overlap that recording a contact hides is at most tolerance times the projected area. */
  lemma ContactHidesLittle(a: BBox, b: BBox, tolerance: real)
    requires ContactAxis(a, b, tolerance).Some?
    ensures OverlapVolume(a, b) <= tolerance * ProjectedArea(a, b, ContactAxis(a, b, tolerance).value)
  {
    hide CommonLength, Volume, Area, TouchesOn;
    ContactDepthBounded(a, b, tolerance);
    ThinVolume(CommonLength(a, b, X), CommonLength(a, b, Y), CommonLength(a, b, Z), tolerance);
  }

  /** A positive gap on some axis leaves no overlap, and a separated axis is exactly what a positive gap means. */
  lemma GapExcludesOverlap(a: BBox, b: BBox)
    ensures MinimumAxisGap(a, b) > 0.0 <==> exists axis :: Separation(a, b, axis).Some?
    ensures MinimumAxisGap(a, b) > 0.0 ==> OverlapVolume(a, b) == 0.0
  {
    assert forall axis :: Separation(a, b, axis).Some? ==> CommonLength(a, b, axis) == 0.0;
  }

  /** A pair is recorded in at most one way. */
  lemma OneFindingPerPair(a: Part, b: Part, s: Settings)
    ensures |PairFindings(a, b, s)| <= 1
    ensures forall f | f in PairFindings(a, b, s) :: (f.part1, f.part2) == (a.name, b.name)
  {
    GapExcludesOverlap(a.bbox, b.bbox);
  }

  // ----------------------------------------------- independence of the order

  /** A finding without the order of its two parts. */
  datatype Unordered =
    | InContact(names: set<string>, axis: Axis, gap: real)
    | Interfering(names: set<string>, volume: real)
    | TooClose(names: set<string>, gap: real)

  ghost function Forget(f: Finding): Unordered {
    match f
    case Contact(p, q, axis, gap) => InContact({p, q}, axis, gap)
    case Interference(p, q, volume) => Interfering({p, q}, volume)
    case CloseClearance(p, q, gap) => TooClose({p, q}, gap)
  }

  /** The findings as unordered pairs with multiplicity, with or without the clearance warnings. */
  ghost function Unorder(findings: seq<Finding>, clearances: bool): multiset<Unordered> {
    if findings == [] then multiset{}
    else
      var last := findings[|findings| - 1];
      Unorder(findings[..|findings| - 1], clearances)
      + if last.CloseClearance? && !clearances then multiset{} else multiset{Forget(last)}
  }

  lemma {:induction false} UnorderConcat(x: seq<Finding>, y: seq<Finding>, clearances: bool)
    ensures Unorder(x + y, clearances) == Unorder(x, clearances) + Unorder(y, clearances)
  {
    if y == [] {
      assert x + y == x;
    } else {
      assert (x + y)[..|x + y| - 1] == x + y[..|y| - 1];
      UnorderConcat(x, y[..|y| - 1], clearances);
    }
  }

  lemma PairAllowedSymmetric(p: string, q: string, rules: seq<Rule>, matches: Glob)
    ensures PairAllowed(p, q, rules, matches) <==> PairAllowed(q, p, rules, matches)
  {
    if PairAllowed(p, q, rules, matches) {
      var i :| 0 <= i < |rules| && RuleCovers(rules[i], p, q, matches);
      assert RuleCovers(rules[i], q, p, matches);
    }
    if PairAllowed(q, p, rules, matches) {
      var i :| 0 <= i < |rules| && RuleCovers(rules[i], q, p, matches);
      assert RuleCovers(rules[i], p, q, matches);
    }
  }

  ghost function PairReport(a: Part, b: Part, s: Settings, clearances: bool): multiset<Unordered> {
    Unorder(PairFindings(a, b, s), clearances)
  }

  ghost predicate AllUpright(parts: seq<Part>) {
    forall i | 0 <= i < |parts| :: Upright(parts[i].bbox)
  }

  /** Visiting a pair the other way round records the same findings. */
  lemma PairOrderIrrelevant(a: Part, b: Part, s: Settings, clearances: bool)
    requires clearances ==> Upright(a.bbox) && Upright(b.bbox)
    ensures PairReport(a, b, s, clearances) == PairReport(b, a, s, clearances)
  {
    hide ContactAxis, OverlapVolume, MinimumAxisGap, AxisFaceGap, PairAllowed, Upright, Unorder;
    SymmetricPair(a.bbox, b.bbox, s.contactTolerance);
    if clearances { SymmetricGap(a.bbox, b.bbox); }
    PairAllowedSymmetric(a.name, b.name, s.allowedOverlaps, s.matches);
    PairAllowedSymmetric(a.name, b.name, s.allowedClearances, s.matches);
    assert {a.name, b.name} == {b.name, a.name};
    if ContactAxis(a.bbox, b.bbox, s.contactTolerance).Some? {
      ContactReport(a, b, s, clearances);
      ContactReport(b, a, s, clearances);
    } else {
      ApartReport(a, b, s, clearances);
      ApartReport(b, a, s, clearances);
    }
  }

  lemma ContactReport(a: Part, b: Part, s: Settings, clearances: bool)
    requires ContactAxis(a.bbox, b.bbox, s.contactTolerance).Some?
    ensures var axis := ContactAxis(a.bbox, b.bbox, s.contactTolerance).value;
            PairReport(a, b, s, clearances)
            == multiset{InContact({a.name, b.name}, axis, s.round(AxisFaceGap(a.bbox, b.bbox, axis)))}
  {
    hide ContactAxis, AxisFaceGap, Unorder;
    SingleUnorder(PairFindings(a, b, s), clearances);
  }

  ghost predicate Interferes(a: Part, b: Part, s: Settings) {
    OverlapVolume(a.bbox, b.bbox) > 0.0 && !PairAllowed(a.name, b.name, s.allowedOverlaps, s.matches)
  }

  ghost predicate Crowds(a: Part, b: Part, s: Settings) {
    && 0.0 < MinimumAxisGap(a.bbox, b.bbox) < s.minClearance
    && !PairAllowed(a.name, b.name, s.allowedClearances, s.matches)
  }

  lemma ApartReport(a: Part, b: Part, s: Settings, clearances: bool)
    requires ContactAxis(a.bbox, b.bbox, s.contactTolerance).None?
    ensures PairReport(a, b, s, clearances)
         == (if Interferes(a, b, s)
             then multiset{Interfering({a.name, b.name}, s.round(OverlapVolume(a.bbox, b.bbox)))} else multiset{})
            + (if Crowds(a, b, s) && clearances
               then multiset{TooClose({a.name, b.name}, s.round(MinimumAxisGap(a.bbox, b.bbox)))} else multiset{})
  {
    hide ContactAxis, OverlapVolume, MinimumAxisGap, PairAllowed, Unorder;
    var x := if Interferes(a, b, s) then [Interference(a.name, b.name, s.round(OverlapVolume(a.bbox, b.bbox)))] else [];
    var y := if Crowds(a, b, s) then [CloseClearance(a.name, b.name, s.round(MinimumAxisGap(a.bbox, b.bbox)))] else [];
    assert PairFindings(a, b, s) == x + y;
    UnorderConcat(x, y, clearances);
    SingleUnorder(x, clearances);
    SingleUnorder(y, clearances);
  }

  lemma SingleUnorder(findings: seq<Finding>, clearances: bool)
    requires |findings| <= 1
    ensures Unorder(findings, clearances)
         == if findings == [] || (findings[0].CloseClearance? && !clearances) then multiset{}
            else multiset{Forget(findings[0])}
  {
    if |findings| == 1 { assert findings[..0] == []; }
  }

  /** The loop visits exactly the pairs of positions i < j. */
  lemma {:induction false} FindingsComeFromPairs(parts: seq<Part>, i: nat, j: nat, s: Settings, f: Finding)
    requires i < j <= |parts| || (i == |parts| && j == i + 1)
    ensures f in FindingsBefore(parts, i, j, s) <==>
            exists x, y | 0 <= x < y < |parts| && (x < i || (x == i && y < j)) ::
              f in PairFindings(parts[x], parts[y], s)
    decreases i, j
  {
    hide PairFindings;
    if j > i + 1 {
      FindingsComeFromPairs(parts, i, j - 1, s, f);
    } else if i > 0 {
      FindingsComeFromPairs(parts, i - 1, |parts|, s, f);
    }
  }

  /** What one part records against each of the others. */
  ghost function Row(p: Part, others: seq<Part>, s: Settings, clearances: bool): multiset<Unordered> {
    if others == [] then multiset{} else PairReport(p, others[0], s, clearances) + Row(p, others[1..], s, clearances)
  }

  /** What the parts record among themselves: each against the later ones. */
  ghost function Report(parts: seq<Part>, s: Settings, clearances: bool): multiset<Unordered> {
    if parts == [] then multiset{} else Row(parts[0], parts[1..], s, clearances) + Report(parts[1..], s, clearances)
  }

  ghost function Without(parts: seq<Part>, i: nat): seq<Part>
    requires i < |parts|
  {
    parts[..i] + parts[i + 1..]
  }

  lemma WithoutTail(parts: seq<Part>, i: nat)
    requires 0 < i < |parts|
    ensures Without(parts, i) == [parts[0]] + Without(parts[1..], i - 1)
    ensures parts[1..][i - 1] == parts[i]
  {
    assert parts[1..][..i - 1] == parts[1..i] && parts[1..][i..] == parts[i + 1..];
  }

  lemma {:induction false} RowTakes(p: Part, others: seq<Part>, i: nat, s: Settings, clearances: bool)
    requires i < |others|
    ensures Row(p, others, s, clearances)
         == PairReport(p, others[i], s, clearances) + Row(p, Without(others, i), s, clearances)
  {
    hide PairReport;
    if i == 0 {
      assert Without(others, 0) == others[1..];
    } else {
      WithoutTail(others, i);
      RowTakes(p, others[1..], i - 1, s, clearances);
      assert Without(others, i)[1..] == Without(others[1..], i - 1);
    }
  }

  /** Any part may be taken out first. */
  lemma {:induction false} ReportTakes(parts: seq<Part>, i: nat, s: Settings, clearances: bool)
    requires i < |parts| && (clearances ==> AllUpright(parts))
    ensures Report(parts, s, clearances)
         == Row(parts[i], Without(parts, i), s, clearances) + Report(Without(parts, i), s, clearances)
  {
    hide PairReport, Row;
    if i == 0 {
      assert Without(parts, 0) == parts[1..];
    } else {
      var first, rest := parts[0], parts[1..];
      var fewer := Without(rest, i - 1);
      WithoutTail(parts, i);
      ReportTakes(rest, i - 1, s, clearances);
      RowTakes(first, rest, i - 1, s, clearances);
      RowStarts(parts[i], first, fewer, s, clearances);
      assert Without(parts, i)[0] == first && Without(parts, i)[1..] == fewer;
      PairOrderIrrelevant(first, parts[i], s, clearances);
    }
  }

  lemma RowStarts(p: Part, first: Part, others: seq<Part>, s: Settings, clearances: bool)
    ensures Row(p, [first] + others, s, clearances)
         == PairReport(p, first, s, clearances) + Row(p, others, s, clearances)
  {
    assert ([first] + others)[1..] == others;
  }

  lemma RestMatches(xs: seq<Part>, ys: seq<Part>, i: nat)
    requires multiset(xs) == multiset(ys) && xs != [] && i < |ys| && ys[i] == xs[0]
    ensures multiset(xs[1..]) == multiset(Without(ys, i))
  {
    assert xs == [xs[0]] + xs[1..];
    assert ys == ys[..i] + [ys[i]] + ys[i + 1..];
    assert multiset(xs[1..]) == multiset(xs) - multiset{xs[0]};
    assert multiset(Without(ys, i)) == multiset(ys) - multiset{ys[i]};
  }

  lemma FindFirst(xs: seq<Part>, ys: seq<Part>) returns (i: nat)
    requires multiset(xs) == multiset(ys) && xs != []
    ensures i < |ys| && ys[i] == xs[0]
  {
    assert xs[0] in multiset(ys);
    i :| 0 <= i < |ys| && ys[i] == xs[0];
  }

  lemma {:induction false} RowPermutes(p: Part, xs: seq<Part>, ys: seq<Part>, s: Settings, clearances: bool)
    requires multiset(xs) == multiset(ys)
    ensures Row(p, xs, s, clearances) == Row(p, ys, s, clearances)
  {
    hide PairReport;
    if xs == [] {
      assert |multiset(ys)| == 0;
    } else {
      var i := FindFirst(xs, ys);
      RestMatches(xs, ys, i);
      RowTakes(p, ys, i, s, clearances);
      RowPermutes(p, xs[1..], Without(ys, i), s, clearances);
    }
  }

  lemma {:induction false} ReportPermutes(xs: seq<Part>, ys: seq<Part>, s: Settings, clearances: bool)
    requires multiset(xs) == multiset(ys) && (clearances ==> AllUpright(ys))
    ensures Report(xs, s, clearances) == Report(ys, s, clearances)
  {
    hide Row;
    if xs == [] {
      assert |multiset(ys)| == 0;
    } else {
      var i := FindFirst(xs, ys);
      RestMatches(xs, ys, i);
      ReportTakes(ys, i, s, clearances);
      RowPermutes(xs[0], xs[1..], Without(ys, i), s, clearances);
      ReportPermutes(xs[1..], Without(ys, i), s, clearances);
    }
  }

  lemma {:induction false} LoopRow(parts: seq<Part>, i: nat, j: nat, s: Settings, clearances: bool)
    requires i < j <= |parts|
    ensures Unorder(FindingsBefore(parts, i, |parts|, s), clearances)
         == Unorder(FindingsBefore(parts, i, j, s), clearances) + Row(parts[i], parts[j..], s, clearances)
    decreases |parts| - j
  {
    hide PairFindings, Unorder;
    if j < |parts| {
      LoopRow(parts, i, j + 1, s, clearances);
      UnorderConcat(FindingsBefore(parts, i, j, s), PairFindings(parts[i], parts[j], s), clearances);
      assert parts[j..][0] == parts[j] && parts[j..][1..] == parts[j + 1..];
    }
  }

  /** The loop reports the parts before i against all later ones; the rest is the report of the rest. */
  lemma {:induction false} LoopReport(parts: seq<Part>, i: nat, s: Settings, clearances: bool)
    requires i <= |parts|
    ensures Unorder(FindingsBefore(parts, i, i + 1, s), clearances) + Report(parts[i..], s, clearances)
         == Report(parts, s, clearances)
  {
    hide PairFindings, Row;
    if i == 0 {
      assert parts[0..] == parts;
    } else {
      LoopReport(parts, i - 1, s, clearances);
      LoopRow(parts, i - 1, i, s, clearances);
      assert parts[i - 1..][0] == parts[i - 1] && parts[i - 1..][1..] == parts[i..];
      assert FindingsBefore(parts, i, i + 1, s) == FindingsBefore(parts, i - 1, |parts|, s);
    }
  }

  lemma SameParts(xs: seq<Part>, ys: seq<Part>)
    requires multiset(xs) == multiset(ys) && AllUpright(xs)
    ensures AllUpright(ys)
  {
    hide Upright;
    forall i | 0 <= i < |ys| ensures Upright(ys[i].bbox) {
      assert ys[i] in multiset(xs);
    }
  }

  lemma AllFindingsReport(parts: seq<Part>, s: Settings, clearances: bool)
    ensures Unorder(AllFindings(parts, s), clearances) == Report(parts, s, clearances)
  {
    LoopReport(parts, |parts|, s, clearances);
    assert parts[|parts|..] == [];
  }

  /**
   * With multiplicity and as unordered pairs, the contacts and interferences do not depend on the order of the
   * parts; nor do the clearance warnings when the boxes are upright.
   */
  lemma PermutationInvariant(parts: seq<Part>, parts': seq<Part>, s: Settings)
    requires multiset(parts) == multiset(parts')
    ensures Unorder(AllFindings(parts, s), false) == Unorder(AllFindings(parts', s), false)
    ensures AllUpright(parts) ==> Unorder(AllFindings(parts, s), true) == Unorder(AllFindings(parts', s), true)
  {
    hide Row, Report, Unorder, FindingsBefore, AllFindings, AllUpright;
    AllFindingsReport(parts, s, false);
    AllFindingsReport(parts', s, false);
    ReportPermutes(parts, parts', s, false);
    if AllUpright(parts) {
      AllFindingsReport(parts, s, true);
      AllFindingsReport(parts', s, true);
      SameParts(parts, parts');
      ReportPermutes(parts, parts', s, true);
    }
  }

  // -------------------------------------------------- independence of origin

  function TranslatedPart(p: Part, dx: real, dy: real, dz: real): Part {
    Part(p.name, p.bbox.Translated(dx, dy, dz))
  }

  function TranslatedParts(parts: seq<Part>, dx: real, dy: real, dz: real): seq<Part> {
    seq(|parts|, i requires 0 <= i < |parts| => TranslatedPart(parts[i], dx, dy, dz))
  }

  lemma TranslatedAxis(a: BBox, b: BBox, dx: real, dy: real, dz: real, axis: Axis)
    ensures var a', b' := a.Translated(dx, dy, dz), b.Translated(dx, dy, dz);
            && Depth(a', b', axis) == Depth(a, b, axis)
            && AxisFaceGap(a', b', axis) == AxisFaceGap(a, b, axis)
            && Separation(a', b', axis) == Separation(a, b, axis)
  {
  }

  lemma TranslatedPair(a: Part, b: Part, s: Settings, dx: real, dy: real, dz: real)
    ensures PairFindings(TranslatedPart(a, dx, dy, dz), TranslatedPart(b, dx, dy, dz), s) == PairFindings(a, b, s)
  {
    hide Depth, AxisFaceGap, Separation, Volume, PairAllowed;
    TranslatedAxis(a.bbox, b.bbox, dx, dy, dz, X);
    TranslatedAxis(a.bbox, b.bbox, dx, dy, dz, Y);
    TranslatedAxis(a.bbox, b.bbox, dx, dy, dz, Z);
  }

  /** Moving the whole assembly changes nothing in the report. */
  lemma {:induction false} TranslationInvariant(
      parts: seq<Part>, i: nat, j: nat, s: Settings, dx: real, dy: real, dz: real)
    requires i < j <= |parts| || (i == |parts| && j == i + 1)
    ensures FindingsBefore(TranslatedParts(parts, dx, dy, dz), i, j, s) == FindingsBefore(parts, i, j, s)
    decreases i, j
  {
    hide PairFindings;
    if j > i + 1 {
      TranslationInvariant(parts, i, j - 1, s, dx, dy, dz);
      TranslatedPair(parts[i], parts[j - 1], s, dx, dy, dz);
    } else if i > 0 {
      TranslationInvariant(parts, i - 1, |parts|, s, dx, dy, dz);
    }
  }

  lemma ReportTranslationInvariant(parts: seq<Part>, s: Settings, dx: real, dy: real, dz: real)
    ensures AllFindings(TranslatedParts(parts, dx, dy, dz), s) == AllFindings(parts, s)
  {
    TranslationInvariant(parts, |parts|, |parts| + 1, s, dx, dy, dz);
  }

  // ----------------------------------------------------------- floating parts

  ghost predicate Touch(parts: seq<Part>, s: Settings, i: int, j: int) {
    && 0 <= i < |parts| && 0 <= j < |parts| && i != j
    && ContactAxis(parts[i].bbox, parts[j].bbox, s.contactTolerance).Some?
  }

  ghost predicate DistinctNames(parts: seq<Part>) {
    forall i, j | 0 <= i < j < |parts| :: parts[i].name != parts[j].name
  }

  lemma ContactFinding(a: Part, b: Part, s: Settings)
    ensures ContactAxis(a.bbox, b.bbox, s.contactTolerance).Some? <==>
            exists f :: f in PairFindings(a, b, s) && f.Contact?
    ensures forall f | f in PairFindings(a, b, s) && f.Contact? :: f.part1 == a.name && f.part2 == b.name
  {
    hide AxisFaceGap, TouchesOn, OverlapVolume, MinimumAxisGap, PairAllowed;
    var touch := ContactAxis(a.bbox, b.bbox, s.contactTolerance);
    if touch.Some? {
      var gap := s.round(AxisFaceGap(a.bbox, b.bbox, touch.value));
      assert Contact(a.name, b.name, touch.value, gap) in PairFindings(a, b, s);
    }
  }

  /** With distinct names a name is listed as contacted exactly when its part touches another. */
  lemma ContactedIffTouching(parts: seq<Part>, s: Settings, i: nat)
    requires DistinctNames(parts) && i < |parts|
    ensures parts[i].name in ContactNames(AllFindings(parts, s)) <==> exists j :: Touch(parts, s, i, j)
  {
    hide PairFindings, ContactAxis;
    var findings := AllFindings(parts, s);
    if parts[i].name in ContactNames(findings) {
      var f :| f in findings && f.Contact? && (f.part1 == parts[i].name || f.part2 == parts[i].name);
      FindingsComeFromPairs(parts, |parts|, |parts| + 1, s, f);
      var x, y :| 0 <= x < y < |parts| && f in PairFindings(parts[x], parts[y], s);
      ContactFinding(parts[x], parts[y], s);
      SymmetricPair(parts[x].bbox, parts[y].bbox, s.contactTolerance);
      assert x == i || y == i;
      assert Touch(parts, s, i, if x == i then y else x);
    }
    if j :| Touch(parts, s, i, j) {
      var x, y := if i < j then i else j, if i < j then j else i;
      SymmetricPair(parts[x].bbox, parts[y].bbox, s.contactTolerance);
      ContactFinding(parts[x], parts[y], s);
      var f :| f in PairFindings(parts[x], parts[y], s) && f.Contact?;
      FindingsComeFromPairs(parts, |parts|, |parts| + 1, s, f);
      assert f in findings;
    }
  }

  lemma {:induction false} FloatingNamesAre(parts: seq<Part>, anchors: set<string>, contacted: set<string>, n: string)
    ensures n in FloatingNames(parts, anchors, contacted) <==>
            n !in anchors && n !in contacted && exists i | 0 <= i < |parts| :: parts[i].name == n
  {
    if parts != [] {
      var front := parts[..|parts| - 1];
      FloatingNamesAre(front, anchors, contacted, n);
      if i :| 0 <= i < |parts| && parts[i].name == n {
        assert i < |front| ==> front[i].name == n;
      }
      if i :| 0 <= i < |front| && front[i].name == n {
        assert parts[i].name == n;
      }
    }
  }

  /** Reported as floating are exactly the non-anchor parts that touch no other part. */
  lemma FloatingIffIsolated(parts: seq<Part>, s: Settings, anchors: set<string>, i: nat)
    requires DistinctNames(parts) && i < |parts|
    ensures parts[i].name in FloatingNames(parts, anchors, ContactNames(AllFindings(parts, s))) <==>
            parts[i].name !in anchors && !exists j :: Touch(parts, s, i, j)
  {
    hide PairFindings, ContactAxis;
    FloatingNamesAre(parts, anchors, ContactNames(AllFindings(parts, s)), parts[i].name);
    ContactedIffTouching(parts, s, i);
  }

  // ------------------------------------------------------------- the summary

  lemma {:induction false} NoWarnings(findings: seq<Finding>)
    ensures WarningCount(findings) == 0 <==> forall f | f in findings :: f.Contact?
  {
    if findings != [] {
      var last := |findings| - 1;
      NoWarnings(findings[..last]);
      assert findings == findings[..last] + [findings[last]];
    }
  }

  lemma WarnedPair(a: Part, b: Part, s: Settings)
    ensures (exists f :: f in PairFindings(a, b, s) && !f.Contact?) <==>
            ContactAxis(a.bbox, b.bbox, s.contactTolerance).None? && (Interferes(a, b, s) || Crowds(a, b, s))
  {
    hide ContactAxis, OverlapVolume, MinimumAxisGap, AxisFaceGap, PairAllowed;
    if ContactAxis(a.bbox, b.bbox, s.contactTolerance).None? {
      if Interferes(a, b, s) {
        assert Interference(a.name, b.name, s.round(OverlapVolume(a.bbox, b.bbox))) in PairFindings(a, b, s);
      }
      if Crowds(a, b, s) {
        assert CloseClearance(a.name, b.name, s.round(MinimumAxisGap(a.bbox, b.bbox))) in PairFindings(a, b, s);
      }
    }
  }

  lemma NoFloatingNames(parts: seq<Part>, s: Settings, anchors: set<string>)
    requires DistinctNames(parts)
    ensures FloatingNames(parts, anchors, ContactNames(AllFindings(parts, s))) == [] <==>
            forall i | 0 <= i < |parts| :: parts[i].name in anchors || exists j :: Touch(parts, s, i, j)
  {
    hide Touch, AllFindings;
    var contacted := ContactNames(AllFindings(parts, s));
    var names := FloatingNames(parts, anchors, contacted);
    hide ContactNames;
    forall i: nat | i < |parts|
      ensures parts[i].name in names <==> parts[i].name !in anchors && !exists j :: Touch(parts, s, i, j)
    {
      FloatingIffIsolated(parts, s, anchors, i);
    }
    if names != [] {
      FloatingNamesAre(parts, anchors, contacted, names[0]);
      var i :| 0 <= i < |parts| && parts[i].name == names[0];
      assert parts[i].name in names;
    }
    hide FloatingNames;
  }

  /**
   * The summary reports success exactly when every part but the anchors touches another, and every pair that does not
   * touch neither overlaps nor comes too close without being allowed to.
   */
  lemma PlacementSucceedsExactly(parts: seq<Part>, s: Settings, anchors: set<string>)
    requires DistinctNames(parts)
    ensures var findings := AllFindings(parts, s);
            SummaryOf(findings, FloatingNames(parts, anchors, ContactNames(findings))).status == Success <==>
            && (forall i | 0 <= i < |parts| :: parts[i].name in anchors || exists j :: Touch(parts, s, i, j))
            && (forall i, j | 0 <= i < j < |parts| ::
                  || Touch(parts, s, i, j)
                  || (!Interferes(parts[i], parts[j], s) && !Crowds(parts[i], parts[j], s)))
  {
    hide PairFindings, ContactAxis, Interferes, Crowds, FloatingNames, ContactNames, FindingsBefore;
    NoWarnings(AllFindings(parts, s));
    NoFloatingNames(parts, s, anchors);
    forall f
      ensures f in AllFindings(parts, s) <==>
              exists x, y | 0 <= x < y < |parts| :: f in PairFindings(parts[x], parts[y], s)
    {
      FindingsComeFromPairs(parts, |parts|, |parts| + 1, s, f);
    }
    hide AllFindings;
    forall i, j | 0 <= i < j < |parts|
      ensures (exists f :: f in PairFindings(parts[i], parts[j], s) && !f.Contact?) <==>
              !Touch(parts, s, i, j) && (Interferes(parts[i], parts[j], s) || Crowds(parts[i], parts[j], s))
    {
      WarnedPair(parts[i], parts[j], s);
    }
  }

  // ------------------------------------------------- support from the anchors

  /** A chain of touching parts from an anchor to part i. */
  ghost predicate Supports(parts: seq<Part>, s: Settings, anchors: set<string>, chain: seq<int>, i: int) {
    && chain != [] && chain[|chain| - 1] == i
    && 0 <= chain[0] < |parts| && parts[chain[0]].name in anchors
    && forall k | 0 <= k < |chain| - 1 :: Touch(parts, s, chain[k], chain[k + 1])
  }

  lemma TouchSymmetric(parts: seq<Part>, s: Settings, i: int, j: int)
    requires Touch(parts, s, i, j)
    ensures Touch(parts, s, j, i)
  {
    SymmetricPair(parts[i].bbox, parts[j].bbox, s.contactTolerance);
  }

  /** Every reported part is really unsupported. */
  lemma FloatingIsUnsupported(parts: seq<Part>, s: Settings, anchors: set<string>, i: nat, chain: seq<int>)
    requires DistinctNames(parts) && i < |parts|
    requires parts[i].name in FloatingNames(parts, anchors, ContactNames(AllFindings(parts, s)))
    ensures !Supports(parts, s, anchors, chain, i)
  {
    hide ContactAxis;
    FloatingIffIsolated(parts, s, anchors, i);
    if Supports(parts, s, anchors, chain, i) && |chain| > 1 {
      TouchSymmetric(parts, s, chain[|chain| - 2], chain[|chain| - 1]);
    }
  }

  ghost predicate Reported(parts: seq<Part>, s: Settings, anchors: set<string>, i: nat)
    requires i < |parts|
  {
    parts[i].name in FloatingNames(parts, anchors, ContactNames(AllFindings(parts, s)))
  }

  ghost predicate Supported(parts: seq<Part>, s: Settings, anchors: set<string>, i: int) {
    exists chain :: Supports(parts, s, anchors, chain, i)
  }

  /** The degree check agrees with reachability from the anchors exactly when every touching part is supported. */
  lemma FloatingIsReachabilityExactly(parts: seq<Part>, s: Settings, anchors: set<string>)
    requires DistinctNames(parts)
    ensures (forall i: nat | i < |parts| :: Reported(parts, s, anchors, i) <==> !Supported(parts, s, anchors, i))
       <==> forall i, j | Touch(parts, s, i, j) :: Supported(parts, s, anchors, i)
  {
    hide Supports, Touch, FloatingNames, ContactNames, AllFindings;
    forall i: nat | i < |parts|
      ensures Reported(parts, s, anchors, i) <==> parts[i].name !in anchors && !exists j :: Touch(parts, s, i, j)
      ensures Reported(parts, s, anchors, i) ==> !Supported(parts, s, anchors, i)
      ensures parts[i].name in anchors ==> Supported(parts, s, anchors, i)
    {
      FloatingIffIsolated(parts, s, anchors, i);
      if chain :| Supports(parts, s, anchors, chain, i) && Reported(parts, s, anchors, i) {
        FloatingIsUnsupported(parts, s, anchors, i, chain);
      }
      if parts[i].name in anchors { AnchorSupported(parts, s, anchors, i); }
    }
    forall i, j | Touch(parts, s, i, j) ensures 0 <= i < |parts| { TouchInRange(parts, s, i, j); }
  }

  lemma AnchorSupported(parts: seq<Part>, s: Settings, anchors: set<string>, i: nat)
    requires i < |parts| && parts[i].name in anchors
    ensures Supports(parts, s, anchors, [i], i)
  {
  }

  lemma TouchInRange(parts: seq<Part>, s: Settings, i: int, j: int)
    requires Touch(parts, s, i, j)
    ensures 0 <= i < |parts| && 0 <= j < |parts|
  {
  }

  /** Parts that each touch something, none an anchor, and nothing outside them. */
  ghost predicate Island(parts: seq<Part>, s: Settings, anchors: set<string>, island: set<int>) {
    && (forall i | i in island :: 0 <= i < |parts| && parts[i].name !in anchors)
    && (forall i | i in island :: exists j :: Touch(parts, s, i, j))
    && (forall i, j | i in island && Touch(parts, s, i, j) :: j in island)
  }

  lemma {:induction false} ChainStaysOnIsland(
      parts: seq<Part>, s: Settings, anchors: set<string>, island: set<int>, chain: seq<int>, k: nat)
    requires Island(parts, s, anchors, island) && k < |chain| && chain[|chain| - 1] in island
    requires forall k | 0 <= k < |chain| - 1 :: Touch(parts, s, chain[k], chain[k + 1])
    ensures chain[k] in island
    decreases |chain| - k
  {
    if k < |chain| - 1 {
      ChainStaysOnIsland(parts, s, anchors, island, chain, k + 1);
      TouchSymmetric(parts, s, chain[k], chain[k + 1]);
    }
  }

  lemma IslandUnsupported(
      parts: seq<Part>, s: Settings, anchors: set<string>, island: set<int>, chain: seq<int>, i: int)
    requires Island(parts, s, anchors, island) && i in island
    ensures !Supports(parts, s, anchors, chain, i)
  {
    hide Touch;
    if Supports(parts, s, anchors, chain, i) {
      ChainStaysOnIsland(parts, s, anchors, island, chain, 0);
    }
  }

  /** No island of any size is ever reported, although nothing on it is supported. */
  lemma IslandEscapes(parts: seq<Part>, s: Settings, anchors: set<string>, island: set<int>, i: nat)
    requires DistinctNames(parts) && Island(parts, s, anchors, island) && i in island
    ensures i < |parts| && !Reported(parts, s, anchors, i) && !Supported(parts, s, anchors, i)
  {
    hide Touch, Supports, FloatingNames, ContactNames, AllFindings;
    FloatingIffIsolated(parts, s, anchors, i);
    if chain :| Supports(parts, s, anchors, chain, i) {
      IslandUnsupported(parts, s, anchors, island, chain, i);
    }
  }

  function Cube(name: string, x: real): Part {
    Part(name, BBox(x, x + 1.0, 0.0, 1.0, 0.0, 1.0))
  }

  lemma CubesTouch(p: string, q: string, x: real, y: real, tolerance: real)
    requires 0.0 <= tolerance < 1.0
    ensures y == x + 1.0 ==> ContactAxis(Cube(p, x).bbox, Cube(q, y).bbox, tolerance).Some?
    ensures Abs(y - x) >= 2.0 ==> ContactAxis(Cube(p, x).bbox, Cube(q, y).bbox, tolerance).None?
  {
    var a, b := Cube(p, x).bbox, Cube(q, y).bbox;
    if y == x + 1.0 { assert TouchesOn(a, b, tolerance, X); }
    if Abs(y - x) >= 2.0 {
      assert AxisFaceGap(a, b, X) >= 1.0 && Depth(a, b, X) < 0.0;
    }
  }

  lemma PairIsIsland(parts: seq<Part>, s: Settings, anchors: set<string>)
    requires |parts| == 3 && parts[1].name !in anchors && parts[2].name !in anchors
    requires Touch(parts, s, 1, 2) && !Touch(parts, s, 1, 0) && !Touch(parts, s, 2, 0)
    ensures Island(parts, s, anchors, {1, 2})
  {
    hide ContactAxis;
    TouchSymmetric(parts, s, 1, 2);
  }

  /** Three unit cubes in a row, the last two face to face and away from the first: an island. */
  lemma IslandExists(s: Settings)
    requires 0.0 <= s.contactTolerance < 1.0
    ensures Island([Cube("base", 0.0), Cube("lid", 5.0), Cube("knob", 6.0)], s, {"base"}, {1, 2})
  {
    hide ContactAxis, Island;
    var parts := [Cube("base", 0.0), Cube("lid", 5.0), Cube("knob", 6.0)];
    CubesTouch("lid", "knob", 5.0, 6.0, s.contactTolerance);
    CubesTouch("lid", "base", 5.0, 0.0, s.contactTolerance);
    CubesTouch("knob", "base", 6.0, 0.0, s.contactTolerance);
    assert "lid"[0] != "base"[0] && "knob"[0] != "base"[0];
    PairIsIsland(parts, s, {"base"});
  }
}
