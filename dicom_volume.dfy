/** `DICOMVolumeCreator`: the rescaled slices stacked into a volume along the
    third axis, and the voxel spacing read from the first slice. */
module DicomVolume {
  import opened Wrappers
  import opened Grids
  import opened Slicing
  import opened Builtins
  import opened DicomLoader

  type Image = seq<seq<real>>

  // ---------------------------------------------------------------- rescaling

  /** Python truth of an element value: zero and `None` are false; a value
      `float` cannot convert is a non-empty, non-numeric value, so true. */
  predicate Truthy(a: Attr) {
    match a
    case Num(x) => x != 0.0
    case Null => false
    case Unconvertible => true
  }

  /** `float(v) if v else default`; `None` when `float` raises. */
  function FloatOr(a: Attr, default: real): (r: Option<real>)
    ensures r.None? <==> a.Unconvertible?
    ensures r.Some? && Truthy(a) ==> a == Num(r.value)
    ensures !Truthy(a) ==> r == Some(default)
  {
    if !Truthy(a) then Some(default) else AsFloat(a)
  }

  /** `pixel_array * slope + intercept`, cell by cell. */
  function Rescale(g: Image, slope: real, intercept: real): (r: Image)
    ensures |r| == |g|
    ensures forall i | 0 <= i < |g| :: |r[i]| == |g[i]|
    ensures forall i, j | 0 <= i < |g| && 0 <= j < |g[i]| :: r[i][j] == g[i][j] * slope + intercept
  {
    seq(|g|, i requires 0 <= i < |g| => seq(|g[i]|, j requires 0 <= j < |g[i]| => g[i][j] * slope + intercept))
  }

  /** One pass of the loop of `create_volume`: the slice's pixels, rescaled when
      the dataset has both `RescaleSlope` and `RescaleIntercept`; `None` when a
      conversion raises and the slice is skipped. */
  function Convert(s: Slice): (r: Option<Image>)
    ensures s.ds.rescaleSlope.None? || s.ds.rescaleIntercept.None? ==> r == Some(s.pixels)
    ensures r.Some? ==> |r.value| == |s.pixels| && forall i | 0 <= i < |s.pixels| :: |r.value[i]| == |s.pixels[i]|
    ensures r.None? <==> s.ds.rescaleSlope.Some? && s.ds.rescaleIntercept.Some?
                         && (s.ds.rescaleSlope.value.Unconvertible? || s.ds.rescaleIntercept.value.Unconvertible?)
  {
    if s.ds.rescaleSlope.Some? && s.ds.rescaleIntercept.Some? then
      var slope := FloatOr(s.ds.rescaleSlope.value, 1.0);
      var intercept := FloatOr(s.ds.rescaleIntercept.value, 0.0);
      if slope.None? || intercept.None? then None
      else Some(Rescale(s.pixels, slope.value, intercept.value))
    else Some(s.pixels)
  }

  /** With both tags present and numeric, each value is `pixel * slope +
      intercept`, where a zero or `None` slope counts as 1 and a zero or `None`
      intercept as 0. */
  lemma RescaleApplied(s: Slice, slope: Attr, intercept: Attr)
    requires s.ds.rescaleSlope == Some(slope) && s.ds.rescaleIntercept == Some(intercept)
    requires !slope.Unconvertible? && !intercept.Unconvertible?
    ensures Convert(s).Some?
    ensures var m := if slope == Null || slope == Num(0.0) then 1.0 else slope.x;
            var b := if intercept.Null? then 0.0 else intercept.x;
            forall i, j | 0 <= i < |s.pixels| && 0 <= j < |s.pixels[i]| ::
              Convert(s).value[i][j] == s.pixels[i][j] * m + b
  {
  }

  /** A zero or missing slope and intercept leave the pixels as they are. */
  lemma NeutralRescale(s: Slice)
    requires s.ds.rescaleSlope.Some? && s.ds.rescaleIntercept.Some?
    requires !Truthy(s.ds.rescaleSlope.value) && !Truthy(s.ds.rescaleIntercept.value)
    ensures Convert(s) == Some(s.pixels)
  {
    assert Convert(s) == Some(Rescale(s.pixels, 1.0, 0.0));
    var r := Convert(s).value;
    assert |r| == |s.pixels|;
    forall i | 0 <= i < |r|
      ensures r[i] == s.pixels[i]
    {
      assert |r[i]| == |s.pixels[i]|;
      forall j | 0 <= j < |r[i]|
        ensures r[i][j] == s.pixels[i][j]
      {
      }
    }
    assert r == s.pixels;
  }

  // ---------------------------------------------------------------- the kept images

  /** What each slice becomes in the loop: rescaled pixels or a skip. */
  function Conversions(slices: seq<Slice>): (conv: seq<Option<Image>>)
    ensures |conv| == |slices|
  {
    seq(|slices|, i requires 0 <= i < |slices| => Convert(slices[i]))
  }

  /** The converted images among the first k, in slice order: `pixel_data_list`. */
  function Survivors(conv: seq<Option<Image>>, k: nat): seq<Image>
    requires k <= |conv|
  {
    if k == 0 then []
    else if conv[k - 1].Some? then Survivors(conv, k - 1) + [conv[k - 1].value]
    else Survivors(conv, k - 1)
  }

  /** Which slices were kept. */
  function Kept(conv: seq<Option<Image>>): (tags: seq<bool>)
    ensures |tags| == |conv|
  {
    seq(|conv|, i requires 0 <= i < |conv| => conv[i].Some?)
  }

  /** The j-th kept image is the conversion of the j-th kept slice. */
  lemma {:induction false} SurvivorsOrigins(conv: seq<Option<Image>>, k: nat)
    requires k <= |conv|
    ensures |Survivors(conv, k)| == |Positions(Kept(conv), true, k)|
    ensures forall j | 0 <= j < |Survivors(conv, k)| ::
              Positions(Kept(conv), true, k)[j] < k
              && conv[Positions(Kept(conv), true, k)[j]] == Some(Survivors(conv, k)[j])
  {
    if k > 0 {
      SurvivorsOrigins(conv, k - 1);
    }
  }

  /** No more images than slices survive. */
  lemma {:induction false} SurvivorsAtMost(conv: seq<Option<Image>>, k: nat)
    requires k <= |conv|
    ensures |Survivors(conv, k)| <= k
  {
    if k > 0 {
      SurvivorsAtMost(conv, k - 1);
    }
  }

  /** No image survives exactly when every slice was skipped. */
  lemma {:induction false} SurvivorsEmpty(conv: seq<Option<Image>>, k: nat)
    requires k <= |conv|
    ensures |Survivors(conv, k)| == 0 <==> forall i | 0 <= i < k :: conv[i].None?
  {
    if k > 0 {
      SurvivorsEmpty(conv, k - 1);
    }
  }

  // ---------------------------------------------------------------- stacking

  const NoPixelData := "No valid pixel data to create volume"
  const ShapeMismatch := "all input arrays must have the same shape"

  /** `np.stack(images, axis=2)` of images of one shape. */
  function Stack(images: seq<Image>, rows: nat, cols: nat): (v: Volume)
    requires forall k | 0 <= k < |images| :: IsGrid(images[k], rows, cols)
    ensures HasShape(v, Shape(rows, cols, |images|))
  {
    seq(rows, r requires 0 <= r < rows =>
      seq(cols, c requires 0 <= c < cols =>
        seq(|images|, k requires 0 <= k < |images| =>
          assert IsGrid(images[k], rows, cols); images[k][r][c])))
  }

  /** The k-th image is the volume's k-th slice along the third axis. */
  lemma StackSlice(images: seq<Image>, rows: nat, cols: nat, k: nat)
    requires forall k | 0 <= k < |images| :: IsGrid(images[k], rows, cols)
    requires k < |images|
    ensures ExtractSlice(Stack(images, rows, cols), Shape(rows, cols, |images|), 2, k) == images[k]
  {
    var g := ExtractSlice(Stack(images, rows, cols), Shape(rows, cols, |images|), 2, k);
    assert IsGrid(images[k], rows, cols);
    forall r | 0 <= r < rows
      ensures g[r] == images[k][r]
    {
    }
  }

  /** The shape of the first image; the others must have it too. */
  function FirstShape(images: seq<Image>): (rc: (nat, nat))
    requires |images| > 0
  {
    (|images[0]|, if |images[0]| > 0 then |images[0][0]| else 0)
  }

  predicate AllShaped(images: seq<Image>, rows: nat, cols: nat) {
    forall k | 0 <= k < |images| :: IsGrid(images[k], rows, cols)
  }

  /** The end of `create_volume`: an error for no images or images of
      different shapes, else the stack and its shape. */
  function StackAll(images: seq<Image>): (r: Result<Loaded>)
    ensures r.Ok? <==> |images| > 0 && AllShaped(images, FirstShape(images).0, FirstShape(images).1)
    ensures r.Ok? ==> HasShape(r.value.volume, r.value.shape) && r.value.shape.n2 == |images|
    ensures r.Err? && |images| == 0 ==> r.message == NoPixelData
  {
    if |images| == 0 then Err(NoPixelData)
    else
      var (rows, cols) := FirstShape(images);
      if AllShaped(images, rows, cols) then Ok(Loaded(Stack(images, rows, cols), Shape(rows, cols, |images|)))
      else Err(ShapeMismatch)
  }

  /** Images with a cell each stack into a volume with no zero dimension. */
  lemma StackNonEmpty(images: seq<Image>)
    requires |images| > 0 && |FlattenGrid(images[0])| > 0 && StackAll(images).Ok?
    ensures StackAll(images).value.shape.Size() > 0
  {
    FlattenGridNonEmpty(images[0]);
    var r :| 0 <= r < |images[0]| && |images[0][r]| > 0;
    var (rows, cols) := FirstShape(images);
    assert IsGrid(images[0], rows, cols);
    StackAll(images).value.shape.SizePositive();
  }

  /** Rescaling keeps each row's length, so a slice with a cell keeps one. */
  lemma ConvertKeepsCells(s: Slice)
    requires |FlattenGrid(s.pixels)| > 0 && Convert(s).Some?
    ensures |FlattenGrid(Convert(s).value)| > 0
  {
    FlattenGridNonEmpty(s.pixels);
    FlattenGridNonEmpty(Convert(s).value);
    var r :| 0 <= r < |s.pixels| && |s.pixels[r]| > 0;
    assert |Convert(s).value[r]| > 0;
  }

  /** The body of the loop of `create_volume` for one slice. */
  method ConvertSlice(slices: seq<Slice>, i: nat) returns (c: Option<Image>)
    requires i < |slices|
    ensures c == Conversions(slices)[i]
  {
    var ds := slices[i].ds;
    var pixels := slices[i].pixels;
    if ds.rescaleSlope.Some? && ds.rescaleIntercept.Some? {
      var slope := FloatOr(ds.rescaleSlope.value, 1.0);
      if slope.None? {
        return None;
      }
      var intercept := FloatOr(ds.rescaleIntercept.value, 0.0);
      if intercept.None? {
        return None;
      }
      pixels := Rescale(pixels, slope.value, intercept.value);
    }
    c := Some(pixels);
  }

  lemma StepKept(conv: seq<Option<Image>>, i: nat, list: seq<Image>)
    requires i < |conv| && conv[i].Some? && Survivors(conv, i) == list
    ensures Survivors(conv, i + 1) == list + [conv[i].value]
  {
  }

  lemma StepSkipped(conv: seq<Option<Image>>, i: nat, list: seq<Image>)
    requires i < |conv| && conv[i].None? && Survivors(conv, i) == list
    ensures Survivors(conv, i + 1) == list
  {
  }

  /** `create_volume` over slices already sorted. */
  method CreateVolume(slices: seq<Slice>) returns (r: Result<Loaded>)
    ensures r == StackAll(Survivors(Conversions(slices), |slices|))
  {
    ghost var conv := Conversions(slices);
    var pixelDataList: seq<Image> := [];
    var i := 0;
    while i < |slices|
      invariant 0 <= i <= |slices|
      invariant pixelDataList == Survivors(conv, i)
    {
      var c := ConvertSlice(slices, i);
      if c.Some? {
        StepKept(conv, i, pixelDataList);
        pixelDataList := pixelDataList + [c.value];
      } else {
        StepSkipped(conv, i, pixelDataList);
      }
      i := i + 1;
    }
    r := StackAll(pixelDataList);
  }

  /** What `create_volume` promises: "No valid pixel data" exactly when every
      slice was skipped; otherwise the volume's depth is the number of kept
      slices and its k-th slice along the third axis is the k-th kept slice,
      converted. */
  lemma CreateVolumeFacts(slices: seq<Slice>)
    ensures var conv := Conversions(slices);
            var r := StackAll(Survivors(conv, |slices|));
            (r == Err(NoPixelData) <==> forall i | 0 <= i < |slices| :: Convert(slices[i]).None?)
            && (r.Ok? ==>
                  var pos := Positions(Kept(conv), true, |slices|);
                  r.value.shape.n2 == |pos|
                  && forall k | 0 <= k < |pos| ::
                       pos[k] < |slices|
                       && Some(ExtractSlice(r.value.volume, r.value.shape, 2, k)) == Convert(slices[pos[k]]))
  {
    var conv := Conversions(slices);
    var list := Survivors(conv, |slices|);
    assert forall i | 0 <= i < |slices| :: conv[i] == Convert(slices[i]);
    SurvivorsEmpty(conv, |slices|);
    SurvivorsOrigins(conv, |slices|);
    var r := StackAll(list);
    assert NoPixelData != ShapeMismatch;
    if r.Ok? {
      var pos := Positions(Kept(conv), true, |slices|);
      forall k | 0 <= k < |pos|
        ensures pos[k] < |slices|
        ensures Some(ExtractSlice(r.value.volume, r.value.shape, 2, k)) == Convert(slices[pos[k]])
      {
        var (rows, cols) := FirstShape(list);
        StackSlice(list, rows, cols, k);
      }
    }
  }

  // ---------------------------------------------------------------- spacing

  /** In-plane spacing: the first two entries of a list of at least two, `(1, 1)`
      otherwise; `None` when an entry does not convert. */
  function InPlane(v: Option<SpacingValue>): Option<(real, real)> {
    match v
    case Some(ListOf(items)) =>
      if |items| >= 2 then
        var x := AsFloat(items[0]);
        if x.None? then None
        else
          var y := AsFloat(items[1]);
          if y.None? then None else Some((x.value, y.value))
      else Some((1.0, 1.0))
    case _ => Some((1.0, 1.0))
  }

  /** Some value `extract_metadata` converts raises: an unconvertible
      thickness, or a first or second spacing entry that is not a number. */
  predicate ConversionFails(ds: Dataset) {
    || ds.sliceThickness == Some(Unconvertible)
    || (&& ds.pixelSpacing.Some? && ds.pixelSpacing.value.ListOf? && |ds.pixelSpacing.value.items| >= 2
        && (!ds.pixelSpacing.value.items[0].Num? || !ds.pixelSpacing.value.items[1].Num?))
  }

  /** `PixelSpacing` is a list of at least two values. */
  predicate SpacingList(ds: Dataset) {
    ds.pixelSpacing.Some? && ds.pixelSpacing.value.ListOf? && |ds.pixelSpacing.value.items| >= 2
  }

  /** `extract_metadata`: `PixelSpacing` gives x and y, `SliceThickness` z
      (a zero or `None` thickness counts as 1), defaulting to 1 mm; any
      conversion failure gives 1 mm on all three axes. */
  function ExtractMetadata(ds: Dataset): (sp: Spacing)
    ensures sp.x == 1.0 || (ds.pixelSpacing.Some? && ds.pixelSpacing.value.ListOf?
                            && |ds.pixelSpacing.value.items| >= 2 && ds.pixelSpacing.value.items[0] == Num(sp.x))
    ensures sp.y == 1.0 || (ds.pixelSpacing.Some? && ds.pixelSpacing.value.ListOf?
                            && |ds.pixelSpacing.value.items| >= 2 && ds.pixelSpacing.value.items[1] == Num(sp.y))
    ensures sp.z == 1.0 || ds.sliceThickness == Some(Num(sp.z))
    ensures ConversionFails(ds) ==> sp == DefaultSpacing
    ensures !ConversionFails(ds) && SpacingList(ds)
            ==> sp.x == ds.pixelSpacing.value.items[0].x && sp.y == ds.pixelSpacing.value.items[1].x
    ensures !ConversionFails(ds) && !SpacingList(ds) ==> sp.x == 1.0 && sp.y == 1.0
    ensures !ConversionFails(ds)
            ==> sp.z == if ds.sliceThickness.Some? && Truthy(ds.sliceThickness.value) then ds.sliceThickness.value.x else 1.0
  {
    var xy := InPlane(ds.pixelSpacing);
    var z := if ds.sliceThickness.Some? then FloatOr(ds.sliceThickness.value, 1.0) else Some(1.0);
    if xy.None? || z.None? then DefaultSpacing
    else Spacing(xy.value.0, xy.value.1, z.value)
  }

  /** A list of two or more numbers and a numeric thickness are read as they
      are (a zero thickness as 1). */
  lemma MetadataRead(ds: Dataset, items: seq<Attr>, x: real, y: real, t: real)
    requires ds.pixelSpacing == Some(ListOf(items)) && |items| >= 2
    requires items[0] == Num(x) && items[1] == Num(y) && ds.sliceThickness == Some(Num(t))
    ensures ExtractMetadata(ds) == Spacing(x, y, if t == 0.0 then 1.0 else t)
  {
  }

  /** A spacing that is not a list of two, with no usable thickness, is the
      default. */
  lemma MetadataDefaults(ds: Dataset)
    requires ds.pixelSpacing.None? || ds.pixelSpacing.value.OtherValue? || |ds.pixelSpacing.value.items| < 2
    requires ds.sliceThickness.None? || !Truthy(ds.sliceThickness.value)
    ensures ExtractMetadata(ds) == DefaultSpacing
  {
  }

  /** A thickness read without a usable list of in-plane spacings: x and y
      are 1 mm and z is the thickness. */
  lemma MetadataThicknessOnly(ds: Dataset, t: real)
    requires ds.pixelSpacing.None? || ds.pixelSpacing.value.OtherValue? || |ds.pixelSpacing.value.items| < 2
    requires ds.sliceThickness == Some(Num(t)) && t != 0.0
    ensures ExtractMetadata(ds) == Spacing(1.0, 1.0, t)
  {
  }

  /** A value that does not convert discards the others: an unconvertible
      thickness, or a first or second entry of a spacing list that is not a
      number, gives 1 mm on all three axes, whatever else converts. */
  lemma MetadataFailure(ds: Dataset)
    requires ConversionFails(ds)
    ensures ExtractMetadata(ds) == DefaultSpacing
  {
  }
}
