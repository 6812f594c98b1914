/**
 * The verdict logic of the geometry checker: the gates and decision rules wrapped around
 * the mesh libraries' results, and the staged orchestrator that fills a
 * `GeometryCheckResult` from them.
 *
 * Everything the libraries compute (reading a mesh, cleaning it, the manifold test,
 * triangle clustering, volumes, point sampling, registration, nearest-neighbour distances,
 * percentiles, bounding-box extents) enters as a field of `MeshFile` or `Registration`.
 */
module Geometry {
  import opened Optional
  import opened Text
  import opened Checks

  // ---------------------------------------------------------------------------
  // Configuration

  const DefaultBboxToleranceMm: real := 1.0
  const DefaultChamferThresholdMm: real := 1.0
  const DefaultHausdorffThresholdMm: real := 1.0
  const DefaultVolumeThresholdPercent: real := 2.0
  const DefaultExpectedComponents: int := 1

  /** Fewer sampled points than this on either mesh aborts the similarity check. */
  const MinSampledPoints: nat := 100

  datatype Thresholds = Thresholds(
    chamferMm: real,
    hausdorffMm: real,
    volumePercent: real,
    bboxToleranceMm: real)

  const DefaultThresholds: Thresholds := Thresholds(
    DefaultChamferThresholdMm, DefaultHausdorffThresholdMm,
    DefaultVolumeThresholdPercent, DefaultBboxToleranceMm)

  // ---------------------------------------------------------------------------
  // What the libraries report

  /** One mesh file, as the file system, open3d and trimesh see it. */
  datatype MeshFile = MeshFile(
    path: string,                    // the path as it is printed in messages
    present: bool,                   // the path exists
    hasTriangles: bool,              // open3d: the mesh read from the file has triangles
    hasTrianglesAfterCleaning: bool, // open3d: triangles survive clean_mesh
    manifold: bool,                  // open3d: the cleaned mesh is watertight
    components: nat,                 // open3d: triangle clusters of the cleaned mesh
    closed: bool,                    // trimesh: the loaded mesh is watertight
    volume: real)                    // trimesh: volume of the loaded mesh

  /** Axis-aligned bounding-box extents. */
  datatype Extents = Extents(x: real, y: real, z: real)

  /** A down-sampled cloud and its feature descriptors, reduced to their sizes. */
  datatype Preprocessed = Preprocessed(downsampledPoints: nat, featureColumns: nat)

  /** What sampling, registration and the distance queries produce for one mesh pair. */
  datatype Registration = Registration(
    generatedSamples: nat,
    referenceSamples: nat,
    generatedPrep: Preprocessed,
    referencePrep: Preprocessed,
    fitness: real,                           // ICP fitness
    generatedToReference: seq<real>,         // nearest-neighbour distances after alignment
    referenceToGenerated: seq<real>,
    hausdorff95: real,                       // 95th percentile of the pooled distances
    hausdorff99: real,                       // 99th percentile of the pooled distances
    alignedGeneratedExtents: Extents,        // extents of the transformed generated mesh
    referenceExtents: Extents)

  // ---------------------------------------------------------------------------
  // The result record

  datatype GeometryCheckResult = GeometryCheckResult(
    isWatertight: Option<bool>,
    isSingleComponent: Option<bool>,
    bboxAccurate: Option<bool>,
    volumePassed: Option<bool>,
    chamferPassed: Option<bool>,
    hausdorffPassed: Option<bool>,
    chamferDistance: Option<real>,
    hausdorff95p: Option<real>,
    hausdorff99p: Option<real>,
    icpFitness: Option<real>,
    volumeRatio: Option<real>,
    referenceVolume: Option<real>,
    generatedVolume: Option<real>,
    errors: seq<string>)
  {
    /** The boolean field holding check `c`. */
    function Verdict(c: Check): Option<bool> {
      match c
      case Watertight => isWatertight
      case SingleComponent => isSingleComponent
      case BoundingBox => bboxAccurate
      case Volume => volumePassed
      case Chamfer => chamferPassed
      case Hausdorff => hausdorffPassed
    }

    /** Every one of the six checks is present and true; one `None` or `false` fails it. */
    function AllPassed(): (b: bool)
      ensures b <==> (forall c :: Verdict(c) == Some(true))
      ensures b <==> isWatertight == Some(true) && isSingleComponent == Some(true)
                     && bboxAccurate == Some(true) && volumePassed == Some(true)
                     && chamferPassed == Some(true) && hausdorffPassed == Some(true)
    {
      && Verdict(Watertight) == Some(true) && Verdict(SingleComponent) == Some(true)
      && Verdict(BoundingBox) == Some(true) && Verdict(Volume) == Some(true)
      && Verdict(Chamfer) == Some(true) && Verdict(Hausdorff) == Some(true)
    }
  }

  /** A record with nothing filled in and an empty error list. */
  const NoChecks: GeometryCheckResult := GeometryCheckResult(
    None, None, None, None, None, None, None, None, None, None, None, None, None, [])

  /** Python truthiness of an optional message: present and non-empty. */
  predicate Truthy(message: Option<string>) {
    message.Some? && message.value != []
  }

  // ---------------------------------------------------------------------------
  // Watertight and component checks

  datatype MeshCheck = MeshCheck(passed: bool, error: Option<string>)

  const NoTrianglesMessage: string := "Mesh has no triangles"
  const EmptyAfterCleaningMessage: string := "Mesh empty after cleaning"
  const NotManifoldMessage: string := "Mesh is not manifold (non-watertight edges)"

  function FileNotFoundMessage(f: MeshFile): string {
    "File not found: " + f.path
  }

  /** The gates both mesh checks run first, in order: file exists, has triangles, keeps them after cleaning. */
  function MeshLoadGate(f: MeshFile): (failure: Option<string>)
    ensures failure.None? <==> f.present && f.hasTriangles && f.hasTrianglesAfterCleaning
    ensures !f.present ==> failure == Some(FileNotFoundMessage(f))
    ensures f.present && !f.hasTriangles ==> failure == Some(NoTrianglesMessage)
    ensures f.present && f.hasTriangles && !f.hasTrianglesAfterCleaning ==> failure == Some(EmptyAfterCleaningMessage)
  {
    if !f.present then Some(FileNotFoundMessage(f))
    else if !f.hasTriangles then Some(NoTrianglesMessage)
    else if !f.hasTrianglesAfterCleaning then Some(EmptyAfterCleaningMessage)
    else None
  }

  /** `check_watertight`: passes exactly when every gate and the manifold test pass; a failure names the first failing gate. */
  function CheckWatertight(f: MeshFile): (r: MeshCheck)
    ensures r.passed <==> f.present && f.hasTriangles && f.hasTrianglesAfterCleaning && f.manifold
    ensures r.error.None? <==> r.passed
    ensures MeshLoadGate(f).Some? ==> r.error == MeshLoadGate(f)
    ensures MeshLoadGate(f).None? && !f.manifold ==> r.error == Some(NotManifoldMessage)
  {
    match MeshLoadGate(f)
    case Some(message) => MeshCheck(false, Some(message))
    case None =>
      if !f.manifold then MeshCheck(false, Some(NotManifoldMessage))
      else MeshCheck(true, None)
  }

  function ComponentMessage(found: nat, expected: int): string {
    "Found " + NatText(found) + " components, expected " + IntText(expected)
  }

  /** `check_single_component`: passes exactly when the gates pass and the cluster count equals `expected`. */
  function CheckSingleComponent(f: MeshFile, expected: int): (r: MeshCheck)
    ensures r.passed <==> MeshLoadGate(f).None? && f.components == expected
    ensures r.error.None? <==> r.passed
    ensures MeshLoadGate(f).Some? ==> r.error == MeshLoadGate(f)
    ensures MeshLoadGate(f).None? && f.components != expected
            ==> r.error == Some(ComponentMessage(f.components, expected))
  {
    match MeshLoadGate(f)
    case Some(message) => MeshCheck(false, Some(message))
    case None =>
      if f.components != expected then MeshCheck(false, Some(ComponentMessage(f.components, expected)))
      else MeshCheck(true, None)
  }

  // ---------------------------------------------------------------------------
  // Volume check

  datatype VolumeCheck = VolumeCheck(
    passed: bool,
    referenceVolume: Option<real>,
    generatedVolume: Option<real>,
    error: Option<string>)

  const GeneratedNotClosedMessage: string := "Generated mesh not watertight for volume"
  const ReferenceNotClosedMessage: string := "Reference mesh not watertight for volume"
  const ZeroReferenceVolumeMessage: string := "Reference volume is zero but generated is not"

  function GeneratedMissingMessage(gen: MeshFile): string {
    "Generated file not found: " + gen.path
  }

  function ReferenceMissingMessage(ref: MeshFile): string {
    "Reference file not found: " + ref.path
  }

  function Abs(x: real): (a: real)
    ensures a >= 0.0 && (a == x || a == -x)
  {
    if x < 0.0 then -x else x
  }

  /**
   * `check_volume`. The file and watertight gates come before any comparison, the
   * generated mesh before the reference; once both files exist both volumes are reported.
   * A zero reference passes only a zero generated volume; otherwise the relative
   * difference in percent must not exceed the threshold.
   */
  function CheckVolume(gen: MeshFile, ref: MeshFile, thresholdPercent: real): (r: VolumeCheck)
    ensures r.passed ==> r.error.None?
    ensures r.error.None? ==> gen.present && ref.present && gen.closed && ref.closed
    ensures gen.present && ref.present
            ==> r.referenceVolume == Some(ref.volume) && r.generatedVolume == Some(gen.volume)
    ensures !(gen.present && ref.present)
            ==> !r.passed && r.referenceVolume.None? && r.generatedVolume.None?
    ensures !gen.present ==> r.error == Some(GeneratedMissingMessage(gen))
    ensures gen.present && !ref.present ==> r.error == Some(ReferenceMissingMessage(ref))
    ensures gen.present && ref.present && !gen.closed ==> r.error == Some(GeneratedNotClosedMessage)
    ensures gen.present && ref.present && gen.closed && !ref.closed
            ==> r.error == Some(ReferenceNotClosedMessage)
    ensures gen.present && ref.present && gen.closed && ref.closed && ref.volume == 0.0
            ==> (r.passed <==> gen.volume == 0.0)
                && (r.error.None? <==> r.passed)
                && (r.error.Some? ==> r.error.value == ZeroReferenceVolumeMessage)
    ensures gen.present && ref.present && gen.closed && ref.closed && ref.volume != 0.0
            ==> r.error.None?
                && (r.passed <==> Abs(gen.volume - ref.volume) * 100.0 <= thresholdPercent * Abs(ref.volume))
  {
    if !gen.present then VolumeCheck(false, None, None, Some(GeneratedMissingMessage(gen)))
    else if !ref.present then VolumeCheck(false, None, None, Some(ReferenceMissingMessage(ref)))
    else
      var genVolume, refVolume := gen.volume, ref.volume;
      if !gen.closed then VolumeCheck(false, Some(refVolume), Some(genVolume), Some(GeneratedNotClosedMessage))
      else if !ref.closed then VolumeCheck(false, Some(refVolume), Some(genVolume), Some(ReferenceNotClosedMessage))
      else if refVolume == 0.0 then
        if genVolume == 0.0 then VolumeCheck(true, Some(refVolume), Some(genVolume), None)
        else VolumeCheck(false, Some(refVolume), Some(genVolume), Some(ZeroReferenceVolumeMessage))
      else
        var percentDiff := Abs(genVolume - refVolume) / Abs(refVolume) * 100.0;
        PercentWithin(Abs(genVolume - refVolume), Abs(refVolume), thresholdPercent);
        VolumeCheck(percentDiff <= thresholdPercent, Some(refVolume), Some(genVolume), None)
  }

  /** Comparing a relative difference in percent is comparing without the division. */
  lemma PercentWithin(diff: real, base: real, threshold: real)
    requires base > 0.0
    ensures diff / base * 100.0 <= threshold <==> diff * 100.0 <= threshold * base
  {
    var q := diff / base;
    assert q * base == diff;
    if q * 100.0 <= threshold {
      assert q * 100.0 * base <= threshold * base;
    } else {
      assert q * 100.0 * base > threshold * base;
    }
  }

  /** A closed mesh compared with itself passes the volume check for any non-negative threshold. */
  lemma VolumeSelfComparison(f: MeshFile, thresholdPercent: real)
    requires f.present && f.closed && thresholdPercent >= 0.0
    ensures CheckVolume(f, f, thresholdPercent).passed
    ensures CheckVolume(f, f, thresholdPercent).referenceVolume == CheckVolume(f, f, thresholdPercent).generatedVolume
  {
  }

  // ---------------------------------------------------------------------------
  // Bounding-box rule

  predicate Ascending(s: seq<real>) {
    forall i, j :: 0 <= i < j < |s| ==> s[i] <= s[j]
  }

  /** Three extents in ascending order. */
  datatype Dimensions = Dimensions(low: real, middle: real, high: real) {
    function AsSeq(): seq<real> {
      [low, middle, high]
    }
  }

  function ExtentsMultiset(e: Extents): multiset<real> {
    multiset{e.x, e.y, e.z}
  }

  /** Python's `sorted(extents)` on a three-element array. */
  function SortedExtents(e: Extents): Dimensions {
    var a, b, c := e.x, e.y, e.z;
    if a <= b then
      if b <= c then Dimensions(a, b, c)
      else if a <= c then Dimensions(a, c, b)
      else Dimensions(c, a, b)
    else
      if a <= c then Dimensions(b, a, c)
      else if b <= c then Dimensions(b, c, a)
      else Dimensions(c, b, a)
  }

  /** The sorted extents are ascending and are exactly the three extents. */
  lemma SortedExtentsSpec(e: Extents)
    ensures Ascending(SortedExtents(e).AsSeq())
    ensures multiset(SortedExtents(e).AsSeq()) == ExtentsMultiset(e)
  {
    var d := SortedExtents(e);
    assert d.low <= d.middle <= d.high;
    assert multiset{d.low, d.middle, d.high} == ExtentsMultiset(e);
  }

  /** An ascending sequence is determined by its elements. */
  lemma {:induction false} AscendingUnique(a: seq<real>, b: seq<real>)
    requires Ascending(a) && Ascending(b)
    requires multiset(a) == multiset(b)
    ensures a == b
  {
    if a != [] {
      SmallestFirst(a, b);
      DropFirst(a);
      DropFirst(b);
      AscendingUnique(a[1..], b[1..]);
      assert a == [a[0]] + a[1..] && b == [b[0]] + b[1..];
    } else {
      assert |multiset(b)| == 0;
    }
  }

  /** Two ascending sequences with the same elements start with the same element. */
  lemma SmallestFirst(a: seq<real>, b: seq<real>)
    requires Ascending(a) && Ascending(b)
    requires multiset(a) == multiset(b) && a != []
    ensures b != [] && a[0] == b[0]
  {
    assert a[0] in multiset(b);
    assert b[0] in multiset(a);
    var i :| 0 <= i < |a| && a[i] == b[0];
    var j :| 0 <= j < |b| && b[j] == a[0];
    assert a[0] <= a[i] && b[0] <= b[j];
  }

  /** Dropping the first element removes exactly it from the multiset. */
  lemma DropFirst(a: seq<real>)
    requires a != []
    ensures multiset(a[1..]) == multiset(a) - multiset{a[0]}
    ensures Ascending(a) ==> Ascending(a[1..])
  {
    assert a == [a[0]] + a[1..];
  }

  /** Extents with the same three values sort to the same dimensions, whatever their axis order. */
  lemma SortedExtentsUnique(e: Extents, e': Extents)
    requires ExtentsMultiset(e) == ExtentsMultiset(e')
    ensures SortedExtents(e) == SortedExtents(e')
  {
    SortedExtentsSpec(e);
    SortedExtentsSpec(e');
    AscendingUnique(SortedExtents(e).AsSeq(), SortedExtents(e').AsSeq());
    assert SortedExtents(e).AsSeq()[0] == SortedExtents(e').AsSeq()[0];
    assert SortedExtents(e).AsSeq()[1] == SortedExtents(e').AsSeq()[1];
    assert SortedExtents(e).AsSeq()[2] == SortedExtents(e').AsSeq()[2];
  }

  /** The smallest of the three extents. */
  function Smallest(e: Extents): real {
    if e.x <= e.y && e.x <= e.z then e.x else if e.y <= e.z then e.y else e.z
  }

  /** The largest of the three extents. */
  function Largest(e: Extents): real {
    if e.x >= e.y && e.x >= e.z then e.x else if e.y >= e.z then e.y else e.z
  }

  /**
   * The bounding-box rule: after sorting both extent triples ascending, every pairwise
   * difference is within the tolerance.
   */
  function BboxAccurate(gen: Extents, ref: Extents, tolerance: real): (r: bool)
    ensures r ==> tolerance >= 0.0
    ensures r ==> Abs(Smallest(gen) - Smallest(ref)) <= tolerance
    ensures r ==> Abs(Largest(gen) - Largest(ref)) <= tolerance
  {
    var genDims, refDims := SortedExtents(gen), SortedExtents(ref);
    && Abs(genDims.low - refDims.low) <= tolerance
    && Abs(genDims.middle - refDims.middle) <= tolerance
    && Abs(genDims.high - refDims.high) <= tolerance
  }

  /** The bounding-box verdict does not depend on the order of either extent triple. */
  lemma BboxOrderInvariant(gen: Extents, gen': Extents, ref: Extents, ref': Extents, tolerance: real)
    requires ExtentsMultiset(gen) == ExtentsMultiset(gen')
    requires ExtentsMultiset(ref) == ExtentsMultiset(ref')
    ensures BboxAccurate(gen, ref, tolerance) == BboxAccurate(gen', ref', tolerance)
  {
    SortedExtentsUnique(gen, gen');
    SortedExtentsUnique(ref, ref');
  }

  /** Extents that are a rearrangement of each other pass for any non-negative tolerance. */
  lemma BboxSameDimensions(gen: Extents, ref: Extents, tolerance: real)
    requires ExtentsMultiset(gen) == ExtentsMultiset(ref)
    requires tolerance >= 0.0
    ensures BboxAccurate(gen, ref, tolerance)
  {
    SortedExtentsUnique(gen, ref);
  }

  // ---------------------------------------------------------------------------
  // Similarity metrics

  function Sum(s: seq<real>): real {
    if s == [] then 0.0 else s[0] + Sum(s[1..])
  }

  function Mean(s: seq<real>): real
    requires |s| > 0
  {
    Sum(s) / |s| as real
  }

  predicate NonNegative(s: seq<real>) {
    forall k :: 0 <= k < |s| ==> s[k] >= 0.0
  }

  predicate AllZero(s: seq<real>) {
    forall k :: 0 <= k < |s| ==> s[k] == 0.0
  }

  /** A sum of non-negative distances is non-negative, and zero exactly when every distance is. */
  lemma {:induction false} SumOfDistances(s: seq<real>)
    requires NonNegative(s)
    ensures Sum(s) >= 0.0
    ensures Sum(s) == 0.0 <==> AllZero(s)
  {
    if s != [] {
      SumOfDistances(s[1..]);
      assert AllZero(s) <==> s[0] == 0.0 && AllZero(s[1..]) by {
        if s[0] == 0.0 && AllZero(s[1..]) {
          forall k | 0 <= k < |s| ensures s[k] == 0.0 {
            if k > 0 { assert s[k] == s[1..][k - 1]; }
          }
        }
      }
    }
  }

  /** The Chamfer distance: the mean of the two directed mean nearest-neighbour distances. */
  function ChamferDistance(genToRef: seq<real>, refToGen: seq<real>): real
    requires |genToRef| > 0 && |refToGen| > 0
  {
    (Mean(genToRef) + Mean(refToGen)) / 2.0
  }

  /** For non-negative distances the Chamfer distance is non-negative, and zero exactly when all distances are. */
  lemma ChamferDistanceZero(genToRef: seq<real>, refToGen: seq<real>)
    requires |genToRef| > 0 && |refToGen| > 0
    requires NonNegative(genToRef) && NonNegative(refToGen)
    ensures ChamferDistance(genToRef, refToGen) >= 0.0
    ensures ChamferDistance(genToRef, refToGen) == 0.0 <==> AllZero(genToRef) && AllZero(refToGen)
  {
    SumOfDistances(genToRef);
    SumOfDistances(refToGen);
  }

  datatype SimilarityCheck = SimilarityCheck(
    chamferDistance: Option<real>,
    hausdorff95p: Option<real>,
    hausdorff99p: Option<real>,
    icpFitness: Option<real>,
    bboxAccurate: Option<bool>,
    error: Option<string>)

  const GeneratedNoTrianglesMessage: string := "Generated mesh has no triangles"
  const ReferenceNoTrianglesMessage: string := "Reference mesh has no triangles"
  const TooFewPointsMessage: string := "Too few points sampled"
  const PreprocessingFailedMessage: string := "Preprocessing for registration failed"
  const DistanceFailedMessage: string := "Distance calculation failed"

  /** `_preprocess_for_registration` yields usable output: down-sampled points and features. */
  predicate PreprocessSucceeded(p: Preprocessed) {
    p.downsampledPoints > 0 && p.featureColumns > 0
  }

  /** Both files load with triangles, enough points are sampled and both clouds preprocess: RANSAC and ICP run. */
  predicate Registered(gen: MeshFile, ref: MeshFile, reg: Registration) {
    && gen.present && ref.present && gen.hasTriangles && ref.hasTriangles
    && reg.generatedSamples >= MinSampledPoints && reg.referenceSamples >= MinSampledPoints
    && PreprocessSucceeded(reg.generatedPrep) && PreprocessSucceeded(reg.referencePrep)
  }

  /**
   * `check_similarity`. Either all five outputs are present and the error absent, or an
   * error explains why; the ICP fitness alone survives a failed distance computation.
   */
  function CheckSimilarity(gen: MeshFile, ref: MeshFile, reg: Registration, bboxTolerance: real): (r: SimilarityCheck)
    ensures r.error.None? <==> Registered(gen, ref, reg)
                               && |reg.generatedToReference| > 0 && |reg.referenceToGenerated| > 0
    ensures r.error.None? ==>
              && r.chamferDistance == Some(ChamferDistance(reg.generatedToReference, reg.referenceToGenerated))
              && r.hausdorff95p == Some(reg.hausdorff95) && r.hausdorff99p == Some(reg.hausdorff99)
              && r.bboxAccurate == Some(BboxAccurate(reg.alignedGeneratedExtents, reg.referenceExtents, bboxTolerance))
    ensures r.error.Some? ==> r.chamferDistance.None? && r.hausdorff95p.None?
                              && r.hausdorff99p.None? && r.bboxAccurate.None?
    ensures r.icpFitness.Some? <==> Registered(gen, ref, reg)
    ensures r.icpFitness.Some? ==> r.icpFitness.value == reg.fitness
    ensures r.error.Some? ==> r.error.value != []
  {
    if !gen.present then SimilarityCheck(None, None, None, None, None, Some(GeneratedMissingMessage(gen)))
    else if !ref.present then SimilarityCheck(None, None, None, None, None, Some(ReferenceMissingMessage(ref)))
    else if !gen.hasTriangles then SimilarityCheck(None, None, None, None, None, Some(GeneratedNoTrianglesMessage))
    else if !ref.hasTriangles then SimilarityCheck(None, None, None, None, None, Some(ReferenceNoTrianglesMessage))
    else if reg.generatedSamples < MinSampledPoints || reg.referenceSamples < MinSampledPoints then
      SimilarityCheck(None, None, None, None, None, Some(TooFewPointsMessage))
    else if !PreprocessSucceeded(reg.generatedPrep) || !PreprocessSucceeded(reg.referencePrep) then
      SimilarityCheck(None, None, None, None, None, Some(PreprocessingFailedMessage))
    else if |reg.generatedToReference| == 0 || |reg.referenceToGenerated| == 0 then
      SimilarityCheck(None, None, None, Some(reg.fitness), None, Some(DistanceFailedMessage))
    else
      var chamfer := ChamferDistance(reg.generatedToReference, reg.referenceToGenerated);
      var bbox := BboxAccurate(reg.alignedGeneratedExtents, reg.referenceExtents, bboxTolerance);
      SimilarityCheck(Some(chamfer), Some(reg.hausdorff95), Some(reg.hausdorff99), Some(reg.fitness), Some(bbox), None)
  }

  // ---------------------------------------------------------------------------
  // The orchestrator

  /** `[prefix + message]` when the message is truthy, else nothing. */
  function Tagged(prefix: string, message: Option<string>): seq<string> {
    if Truthy(message) then [prefix + message.value] else []
  }

  /** `gen_vol / ref_vol` when both volumes are present and non-zero. */
  function VolumeRatio(generated: Option<real>, reference: Option<real>): (ratio: Option<real>)
    ensures ratio.Some? <==> generated.Some? && reference.Some? && generated.value != 0.0 && reference.value != 0.0
    ensures ratio.Some? ==> ratio.value * reference.value == generated.value
  {
    if reference.Some? && reference.value != 0.0 && generated.Some? && generated.value != 0.0
    then Some(generated.value / reference.value)
    else None
  }

  /** `metric <= threshold` when the metric is present, else `None`. */
  function WithinThreshold(metric: Option<real>, threshold: real): Option<bool> {
    if metric.Some? then Some(metric.value <= threshold) else None
  }

  /** The record once the watertight and component checks of the generated mesh are in. */
  function AfterMeshChecks(watertight: MeshCheck, single: MeshCheck): GeometryCheckResult {
    NoChecks.(
      isWatertight := Some(watertight.passed),
      isSingleComponent := Some(single.passed),
      errors := Tagged("Watertight: ", watertight.error) + Tagged("Components: ", single.error))
  }

  /** `r` with the volume check's outcome and both volumes recorded, and their ratio when it exists. */
  function WithVolume(r: GeometryCheckResult, volume: VolumeCheck): GeometryCheckResult {
    r.(
      volumePassed := Some(volume.passed),
      referenceVolume := volume.referenceVolume,
      generatedVolume := volume.generatedVolume,
      volumeRatio := VolumeRatio(volume.generatedVolume, volume.referenceVolume).Else(r.volumeRatio),
      errors := r.errors + Tagged("Volume: ", volume.error))
  }

  /** `r` with the similarity metrics recorded, and the verdicts of the metrics that exist. */
  function WithSimilarity(r: GeometryCheckResult, similarity: SimilarityCheck, t: Thresholds): GeometryCheckResult {
    r.(
      chamferDistance := similarity.chamferDistance,
      hausdorff95p := similarity.hausdorff95p,
      hausdorff99p := similarity.hausdorff99p,
      icpFitness := similarity.icpFitness,
      bboxAccurate := similarity.bboxAccurate,
      chamferPassed := WithinThreshold(similarity.chamferDistance, t.chamferMm).Else(r.chamferPassed),
      hausdorffPassed := WithinThreshold(similarity.hausdorff95p, t.hausdorffMm).Else(r.hausdorffPassed),
      errors := r.errors + Tagged("Similarity: ", similarity.error))
  }

  /**
   * What `perform_geometry_checks` returns: nothing but an error without the generated
   * file; the two mesh checks and an error without the reference; every stage otherwise.
   */
  function GeometryChecks(gen: MeshFile, ref: MeshFile, reg: Registration, expected: int, t: Thresholds): GeometryCheckResult
  {
    if !gen.present then NoChecks.(errors := [GeneratedMissingMessage(gen)])
    else
      var mesh := AfterMeshChecks(CheckWatertight(gen), CheckSingleComponent(gen, expected));
      if !ref.present then mesh.(errors := mesh.errors + [ReferenceMissingMessage(ref)])
      else
        WithSimilarity(
          WithVolume(mesh, CheckVolume(gen, ref, t.volumePercent)),
          CheckSimilarity(gen, ref, reg, t.bboxToleranceMm), t)
  }

  /** Appends `prefix + message` to the error list when the message is truthy. */
  method AppendError(result: GeometryCheckResult, prefix: string, message: Option<string>)
    returns (updated: GeometryCheckResult)
    ensures updated == result.(errors := result.errors + Tagged(prefix, message))
  {
    updated := result;
    if Truthy(message) {
      updated := updated.(errors := updated.errors + [prefix + message.value]);
    }
  }

  /** The volume stage of `perform_geometry_checks`: copies the outcome and volumes, derives the ratio. */
  method RecordVolume(result: GeometryCheckResult, volume: VolumeCheck) returns (updated: GeometryCheckResult)
    ensures updated == WithVolume(result, volume)
  {
    updated := result.(volumePassed := Some(volume.passed));
    updated := updated.(referenceVolume := volume.referenceVolume, generatedVolume := volume.generatedVolume);
    if volume.referenceVolume.Some? && volume.referenceVolume.value != 0.0
       && volume.generatedVolume.Some? && volume.generatedVolume.value != 0.0 {
      updated := updated.(volumeRatio := Some(volume.generatedVolume.value / volume.referenceVolume.value));
    }
    updated := AppendError(updated, "Volume: ", volume.error);
  }

  /** The similarity stage of `perform_geometry_checks`: copies the metrics, derives the two metric verdicts. */
  method RecordSimilarity(result: GeometryCheckResult, similarity: SimilarityCheck, t: Thresholds)
    returns (updated: GeometryCheckResult)
    ensures updated == WithSimilarity(result, similarity, t)
  {
    updated := result.(chamferDistance := similarity.chamferDistance, hausdorff95p := similarity.hausdorff95p,
                       hausdorff99p := similarity.hausdorff99p, icpFitness := similarity.icpFitness,
                       bboxAccurate := similarity.bboxAccurate);
    if similarity.chamferDistance.Some? {
      updated := updated.(chamferPassed := Some(similarity.chamferDistance.value <= t.chamferMm));
    }
    if similarity.hausdorff95p.Some? {
      updated := updated.(hausdorffPassed := Some(similarity.hausdorff95p.value <= t.hausdorffMm));
    }
    updated := AppendError(updated, "Similarity: ", similarity.error);
  }

  /**
   * `perform_geometry_checks`: creates an empty record and fills it stage by stage,
   * appending a prefixed message for every stage that reports an error; it returns early
   * only when a file is missing.
   */
  method PerformGeometryChecks(gen: MeshFile, ref: MeshFile, reg: Registration, expected: int, t: Thresholds)
    returns (result: GeometryCheckResult)
    ensures result == GeometryChecks(gen, ref, reg, expected, t)
  {
    result := NoChecks;

    if !gen.present {
      result := result.(errors := result.errors + [GeneratedMissingMessage(gen)]);
      return;
    }

    var watertight := CheckWatertight(gen);
    result := result.(isWatertight := Some(watertight.passed));
    result := AppendError(result, "Watertight: ", watertight.error);

    var single := CheckSingleComponent(gen, expected);
    result := result.(isSingleComponent := Some(single.passed));
    result := AppendError(result, "Components: ", single.error);
    assert result == AfterMeshChecks(watertight, single);

    if !ref.present {
      result := result.(errors := result.errors + [ReferenceMissingMessage(ref)]);
      return;
    }

    var volume := CheckVolume(gen, ref, t.volumePercent);
    result := RecordVolume(result, volume);

    var similarity := CheckSimilarity(gen, ref, reg, t.bboxToleranceMm);
    result := RecordSimilarity(result, similarity, t);
  }

  // ---------------------------------------------------------------------------
  // Properties of the orchestrator

  /** A missing generated file leaves all six checks unset and reports one error. */
  lemma MissingGeneratedFile(gen: MeshFile, ref: MeshFile, reg: Registration, expected: int, t: Thresholds)
    requires !gen.present
    ensures var r := GeometryChecks(gen, ref, reg, expected, t);
            && (forall c :: r.Verdict(c).None?)
            && r.errors == [GeneratedMissingMessage(gen)]
            && !r.AllPassed()
  {
    var r := GeometryChecks(gen, ref, reg, expected, t);
    assert r.Verdict(Watertight).None?;
  }

  /** A missing reference leaves only the watertight and component checks set, and the last error names the reference. */
  lemma MissingReferenceFile(gen: MeshFile, ref: MeshFile, reg: Registration, expected: int, t: Thresholds)
    requires gen.present && !ref.present
    ensures var r := GeometryChecks(gen, ref, reg, expected, t);
            && r.isWatertight.Some? && r.isSingleComponent.Some?
            && r.bboxAccurate.None? && r.volumePassed.None? && r.chamferPassed.None? && r.hausdorffPassed.None?
            && r.volumeRatio.None? && r.chamferDistance.None?
            && |r.errors| > 0 && r.errors[|r.errors| - 1] == ReferenceMissingMessage(ref)
            && !r.AllPassed()
  {
    var r := GeometryChecks(gen, ref, reg, expected, t);
    assert r.Verdict(BoundingBox).None?;
  }

  /**
   * With both files present every later stage runs and reports its own outcome, whatever
   * the watertight and component checks said: neither of them gates the rest.
   */
  lemma BothFilesRunEveryStage(gen: MeshFile, ref: MeshFile, reg: Registration, expected: int, t: Thresholds)
    requires gen.present && ref.present
    ensures var r := GeometryChecks(gen, ref, reg, expected, t);
            var similarity := CheckSimilarity(gen, ref, reg, t.bboxToleranceMm);
            && r.isWatertight == Some(CheckWatertight(gen).passed)
            && r.isSingleComponent == Some(CheckSingleComponent(gen, expected).passed)
            && r.volumePassed == Some(CheckVolume(gen, ref, t.volumePercent).passed)
            && r.bboxAccurate == similarity.bboxAccurate
            && r.chamferDistance == similarity.chamferDistance
            && r.icpFitness == similarity.icpFitness
  {
  }

  /** The volume ratio is set only when both volumes are present and non-zero. */
  lemma VolumeRatioRule(gen: MeshFile, ref: MeshFile, reg: Registration, expected: int, t: Thresholds)
    ensures var r := GeometryChecks(gen, ref, reg, expected, t);
            && (r.volumeRatio.Some? <==> gen.present && ref.present && gen.volume != 0.0 && ref.volume != 0.0)
            && (r.volumeRatio.Some? ==> r.volumeRatio.value * ref.volume == gen.volume)
  {
  }

  /** The Chamfer and Hausdorff verdicts are threshold comparisons when the metric exists, and unset otherwise. */
  lemma MetricVerdictRule(gen: MeshFile, ref: MeshFile, reg: Registration, expected: int, t: Thresholds)
    ensures var r := GeometryChecks(gen, ref, reg, expected, t);
            && (r.chamferPassed.Some? <==> r.chamferDistance.Some?)
            && (r.chamferPassed.Some? ==> (r.chamferPassed.value <==> r.chamferDistance.value <= t.chamferMm))
            && (r.hausdorffPassed.Some? <==> r.hausdorff95p.Some?)
            && (r.hausdorffPassed.Some? ==> (r.hausdorffPassed.value <==> r.hausdorff95p.value <= t.hausdorffMm))
  {
  }

  /** When every check passes no stage reported an error. */
  lemma {:induction false} AllPassedMeansNoErrors(gen: MeshFile, ref: MeshFile, reg: Registration, expected: int, t: Thresholds)
    requires GeometryChecks(gen, ref, reg, expected, t).AllPassed()
    ensures GeometryChecks(gen, ref, reg, expected, t).errors == []
  {
    var r := GeometryChecks(gen, ref, reg, expected, t);
    assert gen.present && ref.present;
    assert CheckWatertight(gen).passed && CheckSingleComponent(gen, expected).passed;
    assert CheckVolume(gen, ref, t.volumePercent).passed;
    assert CheckSimilarity(gen, ref, reg, t.bboxToleranceMm).bboxAccurate.Some?;
  }

  /**
   * A sound mesh compared with itself, when registration aligns it exactly (all distances
   * zero, extents a rearrangement of the reference's), passes every check.
   */
  lemma SelfComparisonPasses(f: MeshFile, reg: Registration, t: Thresholds)
    requires f.present && f.hasTriangles && f.hasTrianglesAfterCleaning && f.manifold && f.closed
    requires f.components == DefaultExpectedComponents
    requires Registered(f, f, reg)
    requires |reg.generatedToReference| > 0 && |reg.referenceToGenerated| > 0
    requires AllZero(reg.generatedToReference) && AllZero(reg.referenceToGenerated)
    requires reg.hausdorff95 == 0.0 && t.hausdorffMm >= 0.0
    requires ExtentsMultiset(reg.alignedGeneratedExtents) == ExtentsMultiset(reg.referenceExtents)
    requires t.chamferMm >= 0.0 && t.volumePercent >= 0.0 && t.bboxToleranceMm >= 0.0
    ensures GeometryChecks(f, f, reg, DefaultExpectedComponents, t).AllPassed()
    ensures GeometryChecks(f, f, reg, DefaultExpectedComponents, t).errors == []
  {
    ChamferDistanceZero(reg.generatedToReference, reg.referenceToGenerated);
    BboxSameDimensions(reg.alignedGeneratedExtents, reg.referenceExtents, t.bboxToleranceMm);
    AllPassedMeansNoErrors(f, f, reg, DefaultExpectedComponents, t);
  }
}
