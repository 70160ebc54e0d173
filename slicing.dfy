/** The slice arithmetic shared by every slicer of the system: min/max
    normalisation of a volume to 8-bit grey levels, extraction of one 2-D slice
    along an axis, the 90-degree rotation the NIfTI scripts apply, and the two
    "is this slice worth keeping" rules (`any` and std > 1 in the service,
    std < 1 means skip in the scripts). The service's `SliceGenerator` and
    `SupabaseSliceUploader` and the two scripts carry identical copies of
    `normalize_volume`; they are modelled once, here. */
module Slicing {
  import opened Grids

  /** A scanner volume (float voxels) and an 8-bit image or volume. */
  type Volume = seq<seq<seq<real>>>
  type Image = seq<seq<int>>

  /** What a loader produced: the voxels and the shape they have. */
  datatype Loaded = Loaded(volume: Volume, shape: Shape)

  /** `voxel_sizes`: `{"x_spacing_mm", "y_spacing_mm", "z_spacing_mm"}`. */
  datatype Spacing = Spacing(x: real, y: real, z: real)
  const DefaultSpacing := Spacing(1.0, 1.0, 1.0)

  /** The three views, their dictionary keys, and the array axis each one cuts
      (`AXES`). */
  datatype View = Axial | Coronal | Sagittal {
    function Name(): string {
      match this
      case Axial => "axial"
      case Coronal => "coronal"
      case Sagittal => "sagittal"
    }

    function Axis(): nat {
      match this
      case Axial => 2
      case Coronal => 1
      case Sagittal => 0
    }
  }

  /** `VIEWS`: the order in which every slicer walks the views. */
  const Views: seq<View> := [Axial, Coronal, Sagittal]

  // ---------------------------------------------------------------- normalisation

  /** One voxel of `(v - min) / (max - min) * 255` cast to uint8; the cast truncates,
      which for these non-negative values is the floor. A constant volume yields 0. */
  function ScaleVoxel(x: real, lo: real, hi: real): (g: int)
    ensures lo <= x <= hi ==> 0 <= g <= 255
    ensures lo <= hi && x == lo ==> g == 0
    ensures lo < hi && x == hi ==> g == 255
  {
    if hi == lo then 0
    else
      var t := (x - lo) / (hi - lo);
      UnitFraction(x - lo, hi - lo);
      (t * 255.0).Floor
  }

  lemma UnitFraction(a: real, d: real)
    requires d != 0.0
    ensures 0.0 <= a <= d ==> 0.0 <= a / d <= 1.0
    ensures a == 0.0 ==> a / d == 0.0
    ensures a == d ==> a / d == 1.0
  {
    var t := a / d;
    assert t * d == a;
    assert (t - 1.0) * d == a - d;
  }

  /** Truncation keeps the order of voxel intensities. */
  lemma ScaleMonotone(x: real, y: real, lo: real, hi: real)
    requires x <= y && lo <= hi
    ensures ScaleVoxel(x, lo, hi) <= ScaleVoxel(y, lo, hi)
  {
    if lo < hi {
      var d := hi - lo;
      assert (x - lo) / d <= (y - lo) / d by {
        assert (y - lo) / d - (x - lo) / d == (y - x) / d;
      }
    }
  }

  function VolumeMin(v: Volume, s: Shape): real
    requires HasShape(v, s) && s.Size() > 0
  {
    FlattenNonEmpty(v, s);
    SeqMin(Flatten(v))
  }

  function VolumeMax(v: Volume, s: Shape): real
    requires HasShape(v, s) && s.Size() > 0
  {
    FlattenNonEmpty(v, s);
    SeqMax(Flatten(v))
  }

  /** Every voxel lies between the volume's minimum and maximum. */
  lemma VoxelBetweenExtremes(v: Volume, s: Shape, i: nat, j: nat, k: nat)
    requires HasShape(v, s) && s.Size() > 0
    requires i < s.n0 && j < s.n1 && k < s.n2
    ensures VolumeMin(v, s) <= v[i][j][k] <= VolumeMax(v, s)
  {
    InFlatten(v, i, j, k);
    FlattenNonEmpty(v, s);
  }

  /** `normalize_volume`. numpy's `min()` raises on an empty array, so the volume
      must have at least one voxel. */
  function NormalizeVolume(v: Volume, s: Shape): (r: seq<seq<seq<int>>>)
    requires HasShape(v, s) && s.Size() > 0
    ensures HasShape(r, s)
    ensures forall i, j, k | 0 <= i < s.n0 && 0 <= j < s.n1 && 0 <= k < s.n2 ::
      0 <= r[i][j][k] <= 255 && r[i][j][k] == ScaleVoxel(v[i][j][k], VolumeMin(v, s), VolumeMax(v, s))
  {
    seq(s.n0, i requires 0 <= i < s.n0 =>
      seq(s.n1, j requires 0 <= j < s.n1 =>
        seq(s.n2, k requires 0 <= k < s.n2 => NormalizedVoxel(v, s, i, j, k))))
  }

  function NormalizedVoxel(v: Volume, s: Shape, i: nat, j: nat, k: nat): (g: int)
    requires HasShape(v, s) && s.Size() > 0
    requires i < s.n0 && j < s.n1 && k < s.n2
    ensures 0 <= g <= 255 && g == ScaleVoxel(v[i][j][k], VolumeMin(v, s), VolumeMax(v, s))
  {
    VoxelBetweenExtremes(v, s, i, j, k);
    ScaleVoxel(v[i][j][k], VolumeMin(v, s), VolumeMax(v, s))
  }

  /** A constant-intensity volume normalises to all zeros. */
  lemma NormalizeConstant(v: Volume, s: Shape, c: real)
    requires HasShape(v, s) && s.Size() > 0
    requires forall i, j, k | 0 <= i < s.n0 && 0 <= j < s.n1 && 0 <= k < s.n2 :: v[i][j][k] == c
    ensures forall i, j, k | 0 <= i < s.n0 && 0 <= j < s.n1 && 0 <= k < s.n2 ::
      NormalizeVolume(v, s)[i][j][k] == 0
  {
    FlattenNonEmpty(v, s);
    var lo, hi := VolumeMin(v, s), VolumeMax(v, s);
    FlattenHas(v, lo);
    FlattenHas(v, hi);
    assert lo == c && hi == c;
  }

  /** Otherwise the darkest voxel becomes 0, the brightest 255, and the order of
      intensities is kept. */
  lemma NormalizeExtremes(v: Volume, s: Shape, i: nat, j: nat, k: nat)
    requires HasShape(v, s) && s.Size() > 0
    requires i < s.n0 && j < s.n1 && k < s.n2
    ensures v[i][j][k] == VolumeMin(v, s) ==> NormalizeVolume(v, s)[i][j][k] == 0
    ensures v[i][j][k] == VolumeMax(v, s) && VolumeMin(v, s) < VolumeMax(v, s) ==>
      NormalizeVolume(v, s)[i][j][k] == 255
  {
  }

  lemma NormalizeKeepsOrder(v: Volume, s: Shape, a: (nat, nat, nat), b: (nat, nat, nat))
    requires HasShape(v, s) && s.Size() > 0
    requires a.0 < s.n0 && a.1 < s.n1 && a.2 < s.n2
    requires b.0 < s.n0 && b.1 < s.n1 && b.2 < s.n2
    requires v[a.0][a.1][a.2] <= v[b.0][b.1][b.2]
    ensures NormalizeVolume(v, s)[a.0][a.1][a.2] <= NormalizeVolume(v, s)[b.0][b.1][b.2]
  {
    VoxelBetweenExtremes(v, s, a.0, a.1, a.2);
    VoxelBetweenExtremes(v, s, b.0, b.1, b.2);
    ScaleMonotone(v[a.0][a.1][a.2], v[b.0][b.1][b.2], VolumeMin(v, s), VolumeMax(v, s));
  }

  // ---------------------------------------------------------------- slices

  /** The (rows, columns) of a slice cut along an axis: the volume shape with
      that axis removed. */
  function SliceRows(s: Shape, axis: int): nat { if axis == 0 then s.n1 else s.n0 }
  function SliceCols(s: Shape, axis: int): nat { if axis == 0 || axis == 1 then s.n2 else s.n1 }

  /** `extract_slice`: `volume[i,:,:]`, `volume[:,i,:]`, or `volume[:,:,i]` for
      axis 0, 1 and any other value; its cells are stated by `SliceCell`. */
  function ExtractSlice<T>(v: seq<seq<seq<T>>>, s: Shape, axis: int, index: nat): (g: seq<seq<T>>)
    requires HasShape(v, s) && index < s.Dim(axis)
    ensures IsGrid(g, SliceRows(s, axis), SliceCols(s, axis))
  {
    if axis == 0 then v[index]
    else if axis == 1 then seq(s.n0, a requires 0 <= a < s.n0 => v[a][index])
    else seq(s.n0, a requires 0 <= a < s.n0 => seq(s.n1, b requires 0 <= b < s.n1 => v[a][b][index]))
  }

  /** Cell (a, b) of the slice at `index` is the voxel whose remaining coordinates
      are a and b, in axis order. */
  lemma SliceCell<T>(v: seq<seq<seq<T>>>, s: Shape, axis: int, index: nat, a: nat, b: nat)
    requires HasShape(v, s) && index < s.Dim(axis)
    requires a < SliceRows(s, axis) && b < SliceCols(s, axis)
    ensures axis == 0 ==> ExtractSlice(v, s, axis, index)[a][b] == v[index][a][b]
    ensures axis == 1 ==> ExtractSlice(v, s, axis, index)[a][b] == v[a][index][b]
    ensures axis != 0 && axis != 1 ==> ExtractSlice(v, s, axis, index)[a][b] == v[a][b][index]
  {
  }

  /** Each voxel sits in the slice at its own coordinate along every axis. */
  lemma VoxelInItsSlice<T>(v: seq<seq<seq<T>>>, s: Shape, i: nat, j: nat, k: nat)
    requires HasShape(v, s) && i < s.n0 && j < s.n1 && k < s.n2
    ensures ExtractSlice(v, s, 0, i)[j][k] == v[i][j][k]
    ensures ExtractSlice(v, s, 1, j)[i][k] == v[i][j][k]
    ensures ExtractSlice(v, s, 2, k)[i][j] == v[i][j][k]
  {
    SliceCell(v, s, 0, i, j, k);
    SliceCell(v, s, 1, j, i, k);
    SliceCell(v, s, 2, k, i, j);
  }

  /** `np.rot90` of a rows x cols grid: counter-clockwise, giving cols x rows. */
  function Rot90<T>(g: seq<seq<T>>, rows: nat, cols: nat): (r: seq<seq<T>>)
    requires IsGrid(g, rows, cols)
    ensures IsGrid(r, cols, rows)
    ensures forall a, b | 0 <= a < cols && 0 <= b < rows :: r[a][b] == g[b][cols - 1 - a]
  {
    seq(cols, a requires 0 <= a < cols => seq(rows, b requires 0 <= b < rows => g[b][cols - 1 - a]))
  }

  /** Four quarter turns give the original slice back. */
  lemma Rot90FourTimes<T>(g: seq<seq<T>>, rows: nat, cols: nat)
    requires IsGrid(g, rows, cols)
    ensures Rot90(Rot90(Rot90(Rot90(g, rows, cols), cols, rows), rows, cols), cols, rows) == g
  {
    var r1 := Rot90(g, rows, cols);
    var r2 := Rot90(r1, cols, rows);
    var r3 := Rot90(r2, rows, cols);
    var r4 := Rot90(r3, cols, rows);
    assert forall a, b | 0 <= a < rows && 0 <= b < cols :: r2[a][b] == g[rows - 1 - a][cols - 1 - b];
    assert forall a | 0 <= a < rows :: r4[a] == g[a];
  }

  /** The scripts' `extract_slice`: the axis slice, rotated. */
  function ExtractRotated(v: seq<seq<seq<int>>>, s: Shape, axis: int, index: nat): (g: Image)
    requires HasShape(v, s) && index < s.Dim(axis)
    ensures IsGrid(g, SliceCols(s, axis), SliceRows(s, axis))
  {
    Rot90(ExtractSlice(v, s, axis, index), SliceRows(s, axis), SliceCols(s, axis))
  }

  // ---------------------------------------------------------------- keep or skip

  /** `is_valid_slice`: some pixel is non-zero and the standard deviation exceeds 1. */
  predicate IsValidSlice(g: Image) {
    AnyNonZero(FlattenGrid(g)) && StdAboveOne(FlattenGrid(g))
  }

  /** The scripts' skip rule `np.std(slice) < 1`. */
  predicate ScriptSkips(g: Image) {
    StdBelowOne(FlattenGrid(g))
  }

  /** An all-zero (or any constant) slice has no spread, so it is never kept by
      the service and always skipped by the scripts. */
  lemma ConstantSliceRejected(g: Image, c: int)
    requires |FlattenGrid(g)| > 0
    requires forall i | 0 <= i < |FlattenGrid(g)| :: FlattenGrid(g)[i] == c
    ensures !IsValidSlice(g) && ScriptSkips(g)
  {
    ConstantVariance(FlattenGrid(g), c);
  }

  /** `np.any` adds nothing to `std > 1`: a slice with spread above 1 always has a
      non-zero pixel. */
  lemma SpreadImpliesNonZero(g: Image)
    requires StdAboveOne(FlattenGrid(g))
    ensures IsValidSlice(g)
  {
    var f := FlattenGrid(g);
    if !AnyNonZero(f) {
      ConstantVariance(f, 0);
    }
  }

  /** The two rules disagree exactly on spread 1: the 1x2 slice [0, 2] has
      standard deviation 1, so the service drops it and the scripts keep it. */
  lemma StdExactlyOne()
    ensures !IsValidSlice([[0, 2]]) && !ScriptSkips([[0, 2]])
  {
    var f := FlattenGrid([[0, 2]]);
    assert f == [0, 2] by {
      assert FlattenGrid([[0, 2]][1..]) == [];
    }
    assert Sum(f) == 2;
    assert CubedVariance(f) == 8;
  }

  /** Every slice the service keeps is also kept by the scripts. */
  lemma ValidNotSkipped(g: Image)
    requires IsValidSlice(g)
    ensures !ScriptSkips(g)
  {
  }

  // ---------------------------------------------------------------- per-view bookkeeping

  /** Which slices of one view pass `is_valid_slice`, by raw index along the axis.
      The slicers' per-view loops are specified over this vector. */
  function SliceValidity(norm: seq<seq<seq<int>>>, s: Shape, axis: int): (valid: seq<bool>)
    requires HasShape(norm, s)
    ensures |valid| == s.Dim(axis)
    ensures forall i | 0 <= i < |valid| :: valid[i] == IsValidSlice(ExtractSlice(norm, s, axis, i))
  {
    seq(s.Dim(axis), i requires 0 <= i < s.Dim(axis) => IsValidSlice(ExtractSlice(norm, s, axis, i)))
  }

  /** How many of the first k slices are valid. */
  function CountValid(valid: seq<bool>, k: nat): (n: nat)
    requires k <= |valid|
    ensures n <= k
  {
    if k == 0 then 0 else CountValid(valid, k - 1) + (if valid[k - 1] then 1 else 0)
  }

  /** The validity of every slice of every view, in traversal order. */
  function Validities(norm: seq<seq<seq<int>>>, s: Shape): (vs: seq<seq<bool>>)
    requires HasShape(norm, s)
    ensures |vs| == |Views|
    ensures forall n | 0 <= n < |Views| :: vs[n] == SliceValidity(norm, s, Views[n].Axis())
  {
    seq(|Views|, n requires 0 <= n < |Views| => SliceValidity(norm, s, Views[n].Axis()))
  }

  /** Which rotated slices of one view the scripts keep (`np.std(slice) >= 1`). */
  function ScriptKeeps(norm: seq<seq<seq<int>>>, s: Shape, axis: int): (keep: seq<bool>)
    requires HasShape(norm, s)
    ensures |keep| == s.Dim(axis)
    ensures forall i | 0 <= i < |keep| :: keep[i] == !ScriptSkips(ExtractRotated(norm, s, axis, i))
  {
    seq(s.Dim(axis), i requires 0 <= i < s.Dim(axis) => !ScriptSkips(ExtractRotated(norm, s, axis, i)))
  }

  /** The scripts' keep vectors of the three views, in traversal order. */
  function AllScriptKeeps(norm: seq<seq<seq<int>>>, s: Shape): (ks: seq<seq<bool>>)
    requires HasShape(norm, s)
    ensures |ks| == |Views|
    ensures forall n | 0 <= n < |Views| :: ks[n] == ScriptKeeps(norm, s, Views[n].Axis())
  {
    seq(|Views|, n requires 0 <= n < |Views| => ScriptKeeps(norm, s, Views[n].Axis()))
  }

  /** A `slice_counts` dictionary after the first n views, given each view's count
      in traversal order. */
  function CountsMap(sizes: seq<nat>, n: nat): map<string, nat>
    requires n <= |Views| && n <= |sizes|
  {
    if n == 0 then map[] else CountsMap(sizes, n - 1)[Views[n - 1].Name() := sizes[n - 1]]
  }

  /** The dictionary only depends on the first n counts. */
  lemma {:induction false} CountsMapPrefix(a: seq<nat>, b: seq<nat>, n: nat)
    requires n <= |Views| && n <= |a| && n <= |b| && a[..n] == b[..n]
    ensures CountsMap(a, n) == CountsMap(b, n)
  {
    if n > 0 {
      assert a[..n - 1] == a[..n][..n - 1];
      assert b[..n - 1] == b[..n][..n - 1];
      assert a[n - 1] == a[..n][n - 1];
      assert b[n - 1] == b[..n][n - 1];
      CountsMapPrefix(a, b, n - 1);
    }
  }

  /** `sum(slice_counts.values())`. */
  function TotalOf(counts: map<string, nat>): nat {
    (if "axial" in counts then counts["axial"] else 0)
    + (if "coronal" in counts then counts["coronal"] else 0)
    + (if "sagittal" in counts then counts["sagittal"] else 0)
  }

  /** After the three views the dictionary has exactly the three view names as keys,
      each with its own view's count, and its values sum to the three counts. */
  lemma CountsMapFull(sizes: seq<nat>)
    requires |sizes| == |Views|
    ensures CountsMap(sizes, 3) == map["axial" := sizes[0], "coronal" := sizes[1], "sagittal" := sizes[2]]
    ensures CountsMap(sizes, 3).Keys == {"axial", "coronal", "sagittal"}
    ensures TotalOf(CountsMap(sizes, 3)) == sizes[0] + sizes[1] + sizes[2]
  {
    assert Views[0] == Axial && Views[1] == Coronal && Views[2] == Sagittal;
    assert CountsMap(sizes, 1) == map["axial" := sizes[0]];
    assert CountsMap(sizes, 2) == map["axial" := sizes[0], "coronal" := sizes[1]];
  }
}
