/** `CBCTAIAnalyzer`, around the segmentation tool: the downsampling decision,
    which output files are read and which label each gets, the merge of the
    per-tooth masks into one label volume, one segment per label with its
    padded bounding box, the problem detection and the summary. The tool's run,
    the volume loader, Python's `hash` and the detectors' scores are inputs. */
module CbctAnalyzer {
  import opened Wrappers
  import opened Text
  import opened Grids
  import opened Builtins

  // ---------------------------------------------------------------- downsampling

  /** `os.getenv('CBCT_FORCE_FULL_RES', 'false').lower() == 'true'`. */
  predicate ForceFullRes(env: Option<string>) {
    Lower(env.GetOr("false")) == "true"
  }

  /** `min(xs)`. */
  function MinOf(xs: seq<real>): (m: real)
    requires |xs| > 0
    ensures m in xs && forall i | 0 <= i < |xs| :: m <= xs[i]
  {
    if |xs| == 1 then xs[0]
    else
      var m := MinOf(xs[..|xs| - 1]);
      assert forall i | 0 <= i < |xs| - 1 :: xs[..|xs| - 1][i] == xs[i];
      if xs[|xs| - 1] < m then xs[|xs| - 1] else m
  }

  const EmptyMinError := "min() arg is an empty sequence"

  /** The downsampling test: a voxel size under 1 mm among the first three
      zooms, and no forced full resolution. A header without zooms makes `min`
      raise. */
  function ShouldDownsample(zooms: seq<real>, env: Option<string>): (r: Result<bool>)
    ensures r.Err? <==> |zooms| == 0
    ensures r.Ok? ==> (r.value <==> (exists i | 0 <= i < |zooms| && i < 3 :: zooms[i] < 1.0) && !ForceFullRes(env))
  {
    if |zooms| == 0 then Err(EmptyMinError)
    else
      var first := if |zooms| < 3 then zooms else zooms[..3];
      var m := MinOf(first);
      assert forall i | 0 <= i < |first| :: first[i] == zooms[i];
      Ok(m < 1.0 && !ForceFullRes(env))
  }

  /** The variable is read without regard to case. */
  lemma ForceFullResAnyCase()
    ensures ForceFullRes(Some("TRUE")) && ForceFullRes(Some("True")) && !ForceFullRes(None)
  {
    assert Lower("TRUE") == "true";
    assert Lower("True") == "true";
    assert Lower("false") == "false";
  }

  // ---------------------------------------------------------------- output files

  /** One file reported by `os.walk` over the tool's output directory. */
  datatype OutputFile = OutputFile(root: string, name: string) {
    function Path(): string { JoinPath(root, name) }
  }

  /** The paths of the first k walked files whose name ends in ".nii.gz". */
  function Generated(walk: seq<OutputFile>, k: nat): (gen: seq<string>)
    requires k <= |walk|
    ensures |gen| <= k
    ensures forall j | 0 <= j < |gen| :: EndsWith(gen[j], ".nii.gz")
    ensures |gen| == 0 <==> forall i | 0 <= i < k :: !EndsWith(walk[i].name, ".nii.gz")
  {
    if k == 0 then []
    else
      var prev := Generated(walk, k - 1);
      var f := walk[k - 1];
      if EndsWith(f.name, ".nii.gz") then
        JoinPathEnds(f.root, f.name);
        EndsWithTransitive(f.Path(), f.name, ".nii.gz");
        prev + [f.Path()]
      else prev
  }

  lemma EndsWithTransitive(s: string, t: string, u: string)
    requires EndsWith(s, t) && EndsWith(t, u)
    ensures EndsWith(s, u)
  {
    assert s[|s| - |u|..] == t[|t| - |u|..];
  }

  /** The walk loop of `_run_totalsegmentator`. */
  method CollectGenerated(walk: seq<OutputFile>) returns (gen: seq<string>)
    ensures gen == Generated(walk, |walk|)
  {
    gen := [];
    for k := 0 to |walk|
      invariant gen == Generated(walk, k)
    {
      if EndsWith(walk[k].name, ".nii.gz") {
        gen := gen + [walk[k].Path()];
      }
    }
  }

  // ---------------------------------------------------------------- tooth files

  /** The first k paths that contain "tooth". */
  function WithTooth(gen: seq<string>, k: nat): (r: seq<string>)
    requires k <= |gen|
    ensures forall j | 0 <= j < |r| :: Contains(r[j], "tooth") && r[j] in gen
    ensures |r| == 0 <==> forall i | 0 <= i < k :: !Contains(gen[i], "tooth")
  {
    if k == 0 then []
    else if Contains(gen[k - 1], "tooth") then WithTooth(gen, k - 1) + [gen[k - 1]]
    else WithTooth(gen, k - 1)
  }

  /** The files whose masks are merged: the paths containing "tooth", or all
      paths when none does. */
  function ToothFiles(gen: seq<string>): (r: seq<string>)
    ensures forall j | 0 <= j < |r| :: r[j] in gen
    ensures |r| == 0 <==> |gen| == 0
    ensures (exists i | 0 <= i < |gen| :: Contains(gen[i], "tooth")) ==> forall j | 0 <= j < |r| :: Contains(r[j], "tooth")
    ensures (forall i | 0 <= i < |gen| :: !Contains(gen[i], "tooth")) ==> r == gen
  {
    var teeth := WithTooth(gen, |gen|);
    if |teeth| == 0 then gen else teeth
  }

  // ---------------------------------------------------------------- label ids

  /** `tooth_` followed by a digit starts at i. */
  predicate MatchAt(f: string, i: nat) {
    i + 7 <= |f| && f[i..i + 6] == "tooth_" && IsDigit(f[i + 6])
  }

  /** The leftmost match of `tooth_(\d+)` from i on, as `re.search` finds it. */
  function SearchTooth(f: string, i: nat): (r: Option<nat>)
    ensures r.Some? ==> i <= r.value && MatchAt(f, r.value)
    ensures r.Some? ==> forall j | i <= j < r.value :: !MatchAt(f, j)
    ensures r.None? ==> forall j | i <= j < |f| :: !MatchAt(f, j)
    decreases |f| - i
  {
    if i + 7 > |f| then None
    else if MatchAt(f, i) then Some(i)
    else SearchTooth(f, i + 1)
  }

  /** `int(re.search(r'tooth_(\d+)', f).group(1))`, if there is a match. */
  function ToothNumberIn(f: string): (r: Option<nat>) {
    match SearchTooth(f, 0)
    case None => None
    case Some(i) =>
      var rest := f[i + 6..];
      var digits := rest[..DigitRunLength(rest)];
      NonNegativeDecimal(digits);
      Some(ParseDecimal(digits))
  }

  lemma {:induction false} NonNegativeDecimal(s: string)
    requires AllDigits(s)
    ensures ParseDecimal(s) >= 0
  {
    if s != [] {
      NonNegativeDecimal(s[..|s| - 1]);
    }
  }

  function Abs(x: int): nat {
    if x < 0 then -x else x
  }

  /** The label of a mask file: the number after `tooth_`, or
      `abs(hash(f)) % 255 + 1` when the name has none. */
  function LabelId(f: string, hashOf: string -> int): (l: int)
    ensures l >= 0
    ensures ToothNumberIn(f).None? ==> 1 <= l <= 255
  {
    match ToothNumberIn(f)
    case Some(n) => n
    case None => Abs(hashOf(f)) % 255 + 1
  }

  /** A `tooth_<n>` file after a digit-free directory part is labelled n. */
  lemma LabelOfToothFile(prefix: string, n: nat, suffix: string, hashOf: string -> int)
    requires NoDigits(prefix)
    requires suffix == [] || !IsDigit(suffix[0])
    ensures LabelId(prefix + "tooth_" + DecimalString(n) + suffix, hashOf) == n
  {
    var d := DecimalString(n);
    var f := prefix + "tooth_" + d + suffix;
    DecimalStringDigits(n);
    var m := |prefix|;
    assert f[m..m + 6] == "tooth_";
    assert f[m + 6] == d[0];
    forall j | 0 <= j < m ensures !MatchAt(f, j) {
      assert f[j + 6] == (prefix + "tooth_")[j + 6];
    }
    SearchFirst(f, 0, m);
    assert f[m + 6..] == d + suffix;
    DigitRunLengthOf(d, suffix);
    assert (d + suffix)[..|d|] == d;
    ParseDecimalString(n);
  }

  lemma {:induction false} SearchFirst(f: string, i: nat, m: nat)
    requires i <= m && MatchAt(f, m)
    requires forall j | i <= j < m :: !MatchAt(f, j)
    ensures SearchTooth(f, i) == Some(m)
    decreases m - i
  {
    if i < m {
      SearchFirst(f, i + 1, m);
    }
  }

  // ---------------------------------------------------------------- merging the masks

  /** What `mask_data[data > 0] = label_id` stores: the label wrapped to the
      mask's `uint8`. */
  function Stored(lab: int): (v: int)
    ensures 0 <= v < 256
  {
    lab % 256
  }

  /** One mask file (its data in C order) and its label. */
  datatype Layer = Layer(data: seq<real>, lab: int)

  predicate Fits(layers: seq<Layer>, n: nat) {
    forall j | 0 <= j < |layers| :: |layers[j].data| == n
  }

  /** The mask after the first k layers, starting from zeros. */
  function Painted(layers: seq<Layer>, n: nat, k: nat): (m: seq<int>)
    requires k <= |layers| && Fits(layers, n)
    ensures |m| == n
  {
    if k == 0 then seq(n, i => 0)
    else
      var prev := Painted(layers, n, k - 1);
      var l := layers[k - 1];
      seq(n, i requires 0 <= i < n => if l.data[i] > 0.0 then Stored(l.lab) else prev[i])
  }

  /** The last of the first k layers covering voxel i. */
  function LastWriter(layers: seq<Layer>, n: nat, i: nat, k: nat): (r: Option<nat>)
    requires k <= |layers| && Fits(layers, n) && i < n
    ensures r.Some? ==> r.value < k && layers[r.value].data[i] > 0.0
    ensures r.Some? ==> forall j | r.value < j < k :: layers[j].data[i] <= 0.0
    ensures r.None? ==> forall j | 0 <= j < k :: layers[j].data[i] <= 0.0
  {
    if k == 0 then None
    else if layers[k - 1].data[i] > 0.0 then Some(k - 1)
    else LastWriter(layers, n, i, k - 1)
  }

  /** The last writer wins: a voxel holds the label of the last file covering
      it, and 0 when no file does. */
  lemma {:induction false} LastWriterWins(layers: seq<Layer>, n: nat, k: nat)
    requires k <= |layers| && Fits(layers, n)
    ensures forall i | 0 <= i < n ::
              Painted(layers, n, k)[i]
              == match LastWriter(layers, n, i, k) case None => 0 case Some(j) => Stored(layers[j].lab)
  {
    if k > 0 {
      LastWriterWins(layers, n, k - 1);
    }
  }

  /** Every voxel of the mask is a `uint8`. */
  lemma {:induction false} PaintedRange(layers: seq<Layer>, n: nat, k: nat)
    requires k <= |layers| && Fits(layers, n)
    ensures forall i | 0 <= i < n :: 0 <= Painted(layers, n, k)[i] < 256
  {
    if k > 0 {
      PaintedRange(layers, n, k - 1);
    }
  }

  /** `mask_data[data > 0] = label_id` for one file. */
  method Paint(mask: array<int>, data: seq<real>, lab: int)
    requires |data| == mask.Length
    modifies mask
    ensures forall i | 0 <= i < mask.Length :: mask[i] == if data[i] > 0.0 then Stored(lab) else old(mask[i])
  {
    for i := 0 to mask.Length
      invariant forall j | 0 <= j < i :: mask[j] == if data[j] > 0.0 then Stored(lab) else old(mask[j])
      invariant forall j | i <= j < mask.Length :: mask[j] == old(mask[j])
    {
      if data[i] > 0.0 {
        mask[i] := Stored(lab);
      }
    }
  }

  /** The merge loop: a zero mask painted with every layer in turn. */
  method MergeMasks(n: nat, layers: seq<Layer>) returns (mask: array<int>)
    requires Fits(layers, n)
    ensures fresh(mask) && mask[..] == Painted(layers, n, |layers|)
  {
    mask := new int[n](i => 0);
    for k := 0 to |layers|
      invariant mask[..] == Painted(layers, n, k)
    {
      Paint(mask, layers[k].data, layers[k].lab);
    }
  }

  // ---------------------------------------------------------------- voxels and bounding boxes

  /** The coordinate on axis a (0 is z, 1 is y, 2 is x) of the voxel at flat
      index i of an array of shape s in C order. */
  function Coord(s: Shape, i: nat, a: nat): (c: nat)
    requires i < s.Size() && a < 3
    ensures c < s.Dim(a)
  {
    s.SizePositive();
    CoordBound(s, i);
    if a == 0 then i / (s.n1 * s.n2) else if a == 1 then (i / s.n2) % s.n1 else i % s.n2
  }

  lemma CoordBound(s: Shape, i: nat)
    requires i < s.Size() && s.n1 > 0 && s.n2 > 0
    ensures i / (s.n1 * s.n2) < s.n0
  {
    var p := s.n1 * s.n2;
    var q := i / p;
    assert q * p <= i;
    assert s.n0 * p == s.Size();
    assert (q - s.n0) * p < 0;
  }

  /** The smallest and largest coordinate on axis a among the first k voxels
      carrying `lab`. */
  function Extent(m: seq<int>, s: Shape, lab: int, a: nat, k: nat): (r: Option<(nat, nat)>)
    requires |m| == s.Size() && k <= |m| && a < 3
    ensures r.Some? ==> r.value.0 <= r.value.1 < s.Dim(a)
    ensures r.None? <==> forall i | 0 <= i < k :: m[i] != lab
    ensures r.Some? ==> forall i | 0 <= i < k && m[i] == lab :: r.value.0 <= Coord(s, i, a) <= r.value.1
  {
    if k == 0 then None
    else
      var prev := Extent(m, s, lab, a, k - 1);
      if m[k - 1] != lab then prev
      else
        var c := Coord(s, k - 1, a);
        if prev.None? then Some((c, c))
        else Some((if c < prev.value.0 then c else prev.value.0, if c > prev.value.1 then c else prev.value.1))
  }

  /** `(min_x, max_x, min_y, max_y, min_z, max_z)`. */
  datatype Bbox3 = Bbox3(minX: int, maxX: int, minY: int, maxY: int, minZ: int, maxZ: int)

  const BboxPadding := 5

  function Max0(a: int): int { if a > 0 then a else 0 }

  function Min(a: int, b: int): int { if a < b then a else b }

  /** `_get_bbox`: the padded extent on each axis, clamped to the array; an
      absent label gives all zeros. */
  function GetBbox(m: seq<int>, s: Shape, lab: int): Bbox3
    requires |m| == s.Size()
  {
    var ez, ey, ex := Extent(m, s, lab, 0, |m|), Extent(m, s, lab, 1, |m|), Extent(m, s, lab, 2, |m|);
    if ez.None? then Bbox3(0, 0, 0, 0, 0, 0)
    else
      Bbox3(Max0(ex.value.0 - BboxPadding), Min(s.n2, ex.value.1 + BboxPadding),
            Max0(ey.value.0 - BboxPadding), Min(s.n1, ey.value.1 + BboxPadding),
            Max0(ez.value.0 - BboxPadding), Min(s.n0, ez.value.1 + BboxPadding))
  }

  /** An absent label has the empty box; otherwise each axis satisfies
      0 <= min < max <= its dimension, and every voxel carrying the label lies
      in the box, the maximum excluded. */
  lemma BboxFacts(m: seq<int>, s: Shape, lab: int)
    requires |m| == s.Size()
    ensures (forall i | 0 <= i < |m| :: m[i] != lab) ==> GetBbox(m, s, lab) == Bbox3(0, 0, 0, 0, 0, 0)
    ensures (exists i | 0 <= i < |m| :: m[i] == lab) ==>
              var b := GetBbox(m, s, lab);
              && 0 <= b.minX < b.maxX <= s.n2 && 0 <= b.minY < b.maxY <= s.n1 && 0 <= b.minZ < b.maxZ <= s.n0
              && forall i | 0 <= i < |m| && m[i] == lab ::
                   && b.minX <= Coord(s, i, 2) < b.maxX
                   && b.minY <= Coord(s, i, 1) < b.maxY
                   && b.minZ <= Coord(s, i, 0) < b.maxZ
  {
  }

  // ---------------------------------------------------------------- segments

  /** `np.unique(mask)` without 0, among the values below k, ascending. */
  function UniqueLabels(m: seq<int>, k: nat): (ls: seq<nat>)
    ensures forall j | 0 <= j < |ls| :: 1 <= ls[j] < k && ls[j] in m
    ensures forall a, b | 0 <= a < b < |ls| :: ls[a] < ls[b]
    ensures forall l | 1 <= l < k && l in m :: l in ls
  {
    if k <= 1 then []
    else if (k - 1) in m then UniqueLabels(m, k - 1) + [k - 1]
    else UniqueLabels(m, k - 1)
  }

  /** An entry of `segments`. */
  datatype Segment = Segment(detectionId: string, classId: int, toothNumber: string, toothClass: string,
                             toothType: string, bbox: Bbox3, confidence: real)

  function SegmentFor(m: seq<int>, s: Shape, lab: nat): Segment
    requires |m| == s.Size()
  {
    var fdi := DecimalString(lab);
    Segment("tooth_" + fdi, lab, fdi, "tooth_" + fdi, "tooth", GetBbox(m, s, lab), 1.0)
  }

  /** The segments of a mask, one per distinct non-zero label. */
  function SegmentsOf(m: seq<int>, s: Shape): seq<Segment>
    requires |m| == s.Size()
  {
    var ls := UniqueLabels(m, 256);
    seq(|ls|, j requires 0 <= j < |ls| => SegmentFor(m, s, ls[j]))
  }

  /** On a `uint8` mask: one segment per distinct non-zero label, in ascending
      label order, named `tooth_<label>`, with distinct detection ids. */
  lemma SegmentsFacts(m: seq<int>, s: Shape)
    requires |m| == s.Size() && forall i | 0 <= i < |m| :: 0 <= m[i] < 256
    ensures var segs, ls := SegmentsOf(m, s), UniqueLabels(m, 256);
            && |segs| == |ls|
            && (forall l :: l in ls <==> l != 0 && l in m)
            && (forall a, b | 0 <= a < b < |segs| :: segs[a].classId < segs[b].classId)
            && (forall j | 0 <= j < |segs| ::
                  segs[j].classId == ls[j] && segs[j].detectionId == "tooth_" + DecimalString(ls[j])
                  && segs[j].bbox == GetBbox(m, s, ls[j]) && segs[j].confidence == 1.0)
            && (forall a, b | 0 <= a < b < |segs| :: segs[a].detectionId != segs[b].detectionId)
  {
    var segs, ls := SegmentsOf(m, s), UniqueLabels(m, 256);
    forall l | l in ls ensures l != 0 && l in m {
      var j :| 0 <= j < |ls| && ls[j] == l;
    }
    forall l | l != 0 && l in m ensures l in ls {
      var i :| 0 <= i < |m| && m[i] == l;
    }
    forall a, b | 0 <= a < b < |segs| ensures segs[a].detectionId != segs[b].detectionId {
      if segs[a].detectionId == segs[b].detectionId {
        var da, db := DecimalString(ls[a]), DecimalString(ls[b]);
        assert ("tooth_" + da)[6..] == da && ("tooth_" + db)[6..] == db;
        DecimalStringInjective(ls[a], ls[b]);
      }
    }
  }

  /** The segment loop of `_run_totalsegmentator`. */
  method ExtractSegments(mask: array<int>, s: Shape) returns (segs: seq<Segment>)
    requires mask.Length == s.Size()
    ensures segs == SegmentsOf(mask[..], s)
  {
    var m := mask[..];
    var labels := UniqueLabels(m, 256);
    segs := [];
    for j := 0 to |labels|
      invariant segs == seq(j, a requires 0 <= a < j => SegmentFor(m, s, labels[a]))
    {
      segs := segs + [SegmentFor(m, s, labels[j])];
    }
  }

  // ---------------------------------------------------------------- stage 1

  /** What the loader reads from a mask file: its shape and its data in C order. */
  datatype SegFile = SegFile(shape: Shape, data: seq<real>)

  /** The segments, the merged mask and its shape. */
  datatype Stage1 = Stage1(segments: seq<Segment>, mask: seq<int>, maskShape: Shape)

  const ShapeMismatchError := "boolean index did not match indexed array"

  /** The layers of the tooth files, in order. */
  function Layers(teeth: seq<string>, tmp: string, load: string -> SegFile, hashOf: string -> int): (ls: seq<Layer>)
    ensures |ls| == |teeth|
  {
    seq(|teeth|, j requires 0 <= j < |teeth| => Layer(load(JoinPath(tmp, teeth[j])).data, LabelId(teeth[j], hashOf)))
  }

  /** Every tooth file has the mask's shape. */
  predicate SameShapes(teeth: seq<string>, tmp: string, load: string -> SegFile, s: Shape) {
    forall j | 0 <= j < |teeth| ::
      load(JoinPath(tmp, teeth[j])).shape == s && |load(JoinPath(tmp, teeth[j])).data| == s.Size()
  }

  /** `_run_totalsegmentator` after the tool has run: no output file gives no
      segments and a zero mask of the volume's shape; otherwise the mask takes
      the first file's shape, a file of another shape makes the merge raise,
      and the segments are read off the merged mask. */
  function RunTotalSegmentator(walk: seq<OutputFile>, tmp: string, volumeShape: Shape, load: string -> SegFile,
                               hashOf: string -> int): (r: Result<Stage1>)
    ensures r.Ok? ==> |r.value.mask| == r.value.maskShape.Size()
    ensures r.Ok? && |Generated(walk, |walk|)| == 0 ==>
              r.value.segments == [] && r.value.maskShape == volumeShape
              && forall i | 0 <= i < |r.value.mask| :: r.value.mask[i] == 0
  {
    var gen := Generated(walk, |walk|);
    if |gen| == 0 then Ok(Stage1([], seq(volumeShape.Size(), i => 0), volumeShape))
    else
      var s := load(JoinPath(tmp, gen[0])).shape;
      var teeth := ToothFiles(gen);
      if !SameShapes(teeth, tmp, load, s) then Err(ShapeMismatchError)
      else
        var mask := Painted(Layers(teeth, tmp, load, hashOf), s.Size(), |teeth|);
        Ok(Stage1(SegmentsOf(mask, s), mask, s))
  }

  /** The merged mask holds, at every voxel, the label of the last tooth file
      covering it (0 when none does), and there is one segment per label it
      holds. */
  lemma Stage1Facts(walk: seq<OutputFile>, tmp: string, volumeShape: Shape, load: string -> SegFile,
                    hashOf: string -> int)
    requires RunTotalSegmentator(walk, tmp, volumeShape, load, hashOf).Ok?
    requires |Generated(walk, |walk|)| > 0
    ensures var r := RunTotalSegmentator(walk, tmp, volumeShape, load, hashOf).value;
            var teeth := ToothFiles(Generated(walk, |walk|));
            var layers := Layers(teeth, tmp, load, hashOf);
            && Fits(layers, |r.mask|)
            && (forall i | 0 <= i < |r.mask| ::
                  r.mask[i] == match LastWriter(layers, |r.mask|, i, |layers|)
                               case None => 0 case Some(j) => Stored(LabelId(teeth[j], hashOf)))
            && (forall l :: l in UniqueLabels(r.mask, 256) <==> l != 0 && l in r.mask)
            && r.segments == SegmentsOf(r.mask, r.maskShape)
  {
    var gen := Generated(walk, |walk|);
    var s := load(JoinPath(tmp, gen[0])).shape;
    var teeth := ToothFiles(gen);
    var layers := Layers(teeth, tmp, load, hashOf);
    LastWriterWins(layers, s.Size(), |layers|);
    PaintedRange(layers, s.Size(), |layers|);
    SegmentsFacts(Painted(layers, s.Size(), |layers|), s);
  }

  /** `_run_totalsegmentator` as the source runs it. */
  method RunStage1(walk: seq<OutputFile>, tmp: string, volumeShape: Shape, load: string -> SegFile,
                   hashOf: string -> int) returns (r: Result<Stage1>)
    ensures r == RunTotalSegmentator(walk, tmp, volumeShape, load, hashOf)
  {
    var gen := CollectGenerated(walk);
    if |gen| == 0 {
      return Ok(Stage1([], seq(volumeShape.Size(), i => 0), volumeShape));
    }
    var s := load(JoinPath(tmp, gen[0])).shape;
    var teeth := ToothFiles(gen);
    if !SameShapes(teeth, tmp, load, s) {
      return Err(ShapeMismatchError);
    }
    var mask := MergeMasks(s.Size(), Layers(teeth, tmp, load, hashOf));
    var segs := ExtractSegments(mask, s);
    r := Ok(Stage1(segs, mask[..], s));
  }

  // ---------------------------------------------------------------- detection and summary

  /** A loaded detector and its threshold. */
  datatype Detector = Detector(name: string, threshold: real)

  /** An entry of `findings`. */
  datatype Finding = Finding(toothDetectionId: string, toothNumber: string, problem: string, confidence: real,
                             severity: string)

  /** The findings of the first d detectors on one tooth; `prob` is the
      detector's score for the tooth. */
  function ToothFindings(t: Segment, detectors: seq<Detector>, prob: (Segment, string) -> real, d: nat)
    : (fs: seq<Finding>)
    requires d <= |detectors|
    ensures |fs| <= d
    ensures forall f | f in fs :: f.toothDetectionId == t.detectionId
                                   && (f.severity == "high" <==> f.confidence > 0.8)
                                   && (f.severity == "high" || f.severity == "moderate")
  {
    if d == 0 then []
    else
      var prev := ToothFindings(t, detectors, prob, d - 1);
      var det := detectors[d - 1];
      var p := prob(t, det.name);
      if p > det.threshold then prev + [Finding(t.detectionId, t.toothNumber, det.name, p, if p > 0.8 then "high" else "moderate")]
      else prev
  }

  /** `_detect_problems` on the first k segments. */
  function DetectProblems(segs: seq<Segment>, detectors: seq<Detector>, prob: (Segment, string) -> real, k: nat)
    : (fs: seq<Finding>)
    requires k <= |segs|
    ensures |fs| <= k * |detectors|
  {
    if k == 0 then []
    else DetectProblems(segs, detectors, prob, k - 1) + ToothFindings(segs[k - 1], detectors, prob, |detectors|)
  }

  /** A finding is reported only above its detector's threshold. */
  lemma {:induction false} FindingsAboveThreshold(t: Segment, detectors: seq<Detector>, prob: (Segment, string) -> real,
                                                  d: nat)
    requires d <= |detectors|
    ensures forall f | f in ToothFindings(t, detectors, prob, d) ::
              f.confidence == prob(t, f.problem)
              && exists j | 0 <= j < d :: detectors[j].name == f.problem && f.confidence > detectors[j].threshold
  {
    if d > 0 {
      FindingsAboveThreshold(t, detectors, prob, d - 1);
    }
  }

  /** `_generate_summary`. */
  datatype Summary = Summary(totalFindings: nat, requiresAttention: bool)

  function SummaryOf(findings: seq<Finding>): (s: Summary)
    ensures s.totalFindings == |findings| && (s.requiresAttention <==> |findings| > 0)
  {
    Summary(|findings|, |findings| > 0)
  }

  /** The dictionary `analyze_cbct_volume` returns; a failure gives no
      dimensions and an empty summary. */
  datatype Analysis = Analysis(totalTeeth: nat, teethData: seq<Segment>, findings: seq<Finding>,
                               summary: Option<Summary>, dimensions: Option<Shape>)

  /** `analyze_cbct_volume`: any failure of stage 1 is caught and gives the empty
      structure. `zooms` is the input header's voxel size; `volumeShape` is the
      shape of the volume that is segmented (resampled or not). */
  function AnalyzeCbctVolume(zooms: seq<real>, env: Option<string>, walk: seq<OutputFile>, tmp: string,
                             volumeShape: Shape, load: string -> SegFile, hashOf: string -> int,
                             detectors: seq<Detector>, prob: (Segment, string) -> real)
    : (r: Analysis)
    ensures r.totalTeeth == |r.teethData|
    ensures r.summary.Some? ==> r.summary.value.totalFindings == |r.findings|
    ensures r.summary.None? <==> r.dimensions.None?
    ensures r.summary.None? ==> r.teethData == [] && r.findings == []
    ensures r.dimensions.Some? <==>
              ShouldDownsample(zooms, env).Ok? && RunTotalSegmentator(walk, tmp, volumeShape, load, hashOf).Ok?
    ensures r.dimensions.Some? ==>
              r.dimensions.value == volumeShape
              && r.teethData == RunTotalSegmentator(walk, tmp, volumeShape, load, hashOf).value.segments
  {
    var stage := RunTotalSegmentator(walk, tmp, volumeShape, load, hashOf);
    if ShouldDownsample(zooms, env).Err? || stage.Err? then Analysis(0, [], [], None, None)
    else
      var segs := stage.value.segments;
      var findings := DetectProblems(segs, detectors, prob, |segs|);
      Analysis(|segs|, segs, findings, Some(SummaryOf(findings)), Some(volumeShape))
  }
}
