/** `DICOMLoader`: which files of a directory tree are taken for DICOM, how they
    are read into slices (or rejected with a reason), and the order the slices
    are stacked in. File contents, directory listings and the DICOM parser are
    inputs. */
module DicomLoader {
  import opened Wrappers
  import opened Text
  import opened Grids
  import opened Builtins

  type byte = b: int | 0 <= b < 256

  // ---------------------------------------------------------------- the magic number

  /** `b'DICM'`, found after the 128-byte preamble of a DICOM Part 10 file. */
  const Magic: seq<byte> := [68, 73, 67, 77]
  const MagicOffset: nat := 128

  /** What opening a file gives: its bytes, or an error (missing, unreadable). */
  datatype FileContent = Readable(bytes: seq<byte>) | Unreadable

  /** `f.seek(offset); f.read(count)`: a read past the end is cut short. */
  function ReadAt(bytes: seq<byte>, offset: nat, count: nat): (r: seq<byte>)
    ensures |r| <= count
    ensures offset + count <= |bytes| ==> r == bytes[offset..offset + count]
  {
    var from := if offset <= |bytes| then offset else |bytes|;
    var to := if offset + count <= |bytes| then offset + count else |bytes|;
    bytes[from..to]
  }

  /** `is_dicom_file`: the four bytes at offset 128 read as `DICM`; an open
      error gives false. */
  predicate IsDicomFile(f: FileContent) {
    f.Readable? && ReadAt(f.bytes, MagicOffset, |Magic|) == Magic
  }

  /** The magic test holds exactly for readable files of at least 132 bytes
      whose bytes 128..131 spell `DICM`; a shorter file never passes. */
  lemma IsDicomFileExactly(f: FileContent)
    ensures IsDicomFile(f) <==>
              f.Readable? && |f.bytes| >= 132 && f.bytes[128..132] == Magic
  {
    if f.Readable? && |f.bytes| < 132 {
      assert |ReadAt(f.bytes, MagicOffset, |Magic|)| < 4;
    }
  }

  /** Any preamble of 128 bytes followed by the magic is recognised, whatever
      comes after. */
  lemma PreambleThenMagic(preamble: seq<byte>, rest: seq<byte>)
    requires |preamble| == 128
    ensures IsDicomFile(Readable(preamble + Magic + rest))
  {
    var b := preamble + Magic + rest;
    assert b[128..132] == Magic;
  }

  // ---------------------------------------------------------------- finding files

  /** Extensions that are trusted without the magic, and `SUPPORTED_EXTENSIONS`. */
  const KnownExtensions: set<string> := {".dcm", ".dicom", ".ima"}
  const SupportedExtensions: set<string> := KnownExtensions + {""}

  /** `os.path.splitext(file)[1].lower()`. */
  function Extension(name: string): string {
    Lower(SplitExt(name))
  }

  /** The test inside `find_dicom_files`: a supported extension, and then either
      the magic or a trusted extension. */
  predicate Accepts(ext: string, magic: bool) {
    ext in SupportedExtensions && (magic || ext in KnownExtensions)
  }

  /** A trusted extension is enough; a file without extension needs the magic;
      any other extension is refused even with the magic. */
  lemma AcceptanceRule(ext: string, magic: bool)
    ensures Accepts(ext, magic) <==> ext in KnownExtensions || (ext == "" && magic)
  {
  }

  /** One file reported by `os.walk`: its directory, its name and its content. */
  datatype WalkedFile = WalkedFile(root: string, name: string, content: FileContent) {
    function Path(): string { JoinPath(root, name) }
  }

  predicate Accepted(f: WalkedFile) {
    Accepts(Extension(f.name), IsDicomFile(f.content))
  }

  /** Which walked files are taken, in walk order. */
  function Acceptance(files: seq<WalkedFile>): (acc: seq<bool>)
    ensures |acc| == |files|
  {
    if |files| == 0 then [] else Acceptance(files[..|files| - 1]) + [Accepted(files[|files| - 1])]
  }

  lemma {:induction false} AcceptanceAt(files: seq<WalkedFile>, i: nat)
    requires i < |files|
    ensures Acceptance(files)[i] == Accepted(files[i])
  {
    if i < |files| - 1 {
      AcceptanceAt(files[..|files| - 1], i);
    }
  }

  /** The paths of the taken files among the first k, in walk order. */
  function Found(files: seq<WalkedFile>, acc: seq<bool>, k: nat): seq<string>
    requires k <= |files| && k <= |acc|
  {
    if k == 0 then []
    else if acc[k - 1] then Found(files, acc, k - 1) + [files[k - 1].Path()]
    else Found(files, acc, k - 1)
  }

  /** The j-th path found is the path of the j-th taken file: together with
      `PositionsMembers` and `PositionsIncreasing`, the result lists every
      taken file once, in walk order, and nothing else. */
  lemma {:induction false} FoundOrigins(files: seq<WalkedFile>, acc: seq<bool>, k: nat)
    requires k <= |files| && k <= |acc|
    ensures |Found(files, acc, k)| == |Positions(acc, true, k)|
    ensures forall j | 0 <= j < |Found(files, acc, k)| ::
              Positions(acc, true, k)[j] < k
              && Found(files, acc, k)[j] == files[Positions(acc, true, k)[j]].Path()
  {
    if k > 0 {
      FoundOrigins(files, acc, k - 1);
    }
  }

  /** The body of the inner loop of `find_dicom_files` for one file: the magic
      is read only for a supported extension. */
  method TakeFile(files: seq<WalkedFile>, i: nat) returns (taken: bool)
    requires i < |files|
    ensures taken == Acceptance(files)[i]
  {
    AcceptanceAt(files, i);
    var f := files[i];
    var ext := Extension(f.name);
    taken := false;
    if ext in SupportedExtensions {
      if IsDicomFile(f.content) {
        taken := true;
      } else if ext in KnownExtensions {
        taken := true;
      }
    }
  }

  /** One pass of the inner loop: the path is appended when the file is taken. */
  method VisitFile(files: seq<WalkedFile>, i: nat, found: seq<string>) returns (next: seq<string>)
    requires i < |files| && found == Found(files, Acceptance(files), i)
    ensures next == Found(files, Acceptance(files), i + 1)
  {
    var taken := TakeFile(files, i);
    if taken {
      next := found + [files[i].Path()];
    } else {
      next := found;
    }
  }

  /** `find_dicom_files` over the listing `os.walk` produced. */
  method FindDicomFiles(files: seq<WalkedFile>) returns (dicomFiles: seq<string>)
    ensures dicomFiles == Found(files, Acceptance(files), |files|)
  {
    dicomFiles := [];
    var i := 0;
    while i < |files|
      invariant 0 <= i <= |files|
      invariant dicomFiles == Found(files, Acceptance(files), i)
    {
      dicomFiles := VisitFile(files, i, dicomFiles);
      i := i + 1;
    }
  }

  // ---------------------------------------------------------------- datasets

  /** A DICOM element's value: a number, `None`, or a value that `float`/`int`
      cannot convert. */
  datatype Attr = Num(x: real) | Null | Unconvertible

  /** `PixelSpacing`: a Python list or tuple of values, or any other value. */
  datatype SpacingValue = ListOf(items: seq<Attr>) | OtherValue

  /** The elements of a dataset the service looks at; `None` means the
      attribute is absent. An empty `ImagePositionPatient` is `Some([])`. */
  datatype Dataset = Dataset(sliceLocation: Option<Attr>, imagePosition: Option<seq<Attr>>,
                             instanceNumber: Option<Attr>, rescaleSlope: Option<Attr>,
                             rescaleIntercept: Option<Attr>, pixelSpacing: Option<SpacingValue>,
                             sliceThickness: Option<Attr>)

  /** What `pydicom.dcmread(path, force=True)` gives: a dataset with or without
      a `pixel_array`, or the text of the exception it raised. */
  datatype DcmRead = Read(ds: Dataset, pixels: Option<seq<seq<real>>>) | ReadFailed(error: string)

  /** A valid slice `(dataset, file_path, pixel_array)` and a rejected file
      `(file_path, error_message)`. */
  datatype Slice = Slice(ds: Dataset, path: string, pixels: seq<seq<real>>)
  datatype Failure = Failure(path: string, reason: string)

  // ---------------------------------------------------------------- loading

  /** The verdict on one path: its slice, or the reason it was rejected. */
  function Check(path: string, r: DcmRead): (v: Result<Slice>)
    ensures v.Ok? ==> v.value.path == path && |FlattenGrid(v.value.pixels)| > 0
    ensures v.Err? <==> r.ReadFailed? || r.pixels.None? || |FlattenGrid(r.pixels.value)| == 0
  {
    match r
    case ReadFailed(e) => Err(e)
    case Read(ds, pixels) =>
      if pixels.None? then Err("No pixel data")
      else if |FlattenGrid(pixels.value)| == 0 then Err("Empty pixel array")
      else Ok(Slice(ds, path, pixels.value))
  }

  /** The rejection reasons: the parser's own message, "No pixel data", or
      "Empty pixel array". */
  lemma RejectionReasons(path: string, r: DcmRead)
    ensures r.ReadFailed? ==> Check(path, r) == Err(r.error)
    ensures r.Read? && r.pixels.None? ==> Check(path, r) == Err("No pixel data")
    ensures r.Read? && r.pixels.Some? && |FlattenGrid(r.pixels.value)| == 0 ==>
              Check(path, r) == Err("Empty pixel array")
  {
  }

  datatype Partitioned = Partitioned(valid: seq<Slice>, failed: seq<Failure>)

  /** The verdict on every path, in input order. */
  function Verdicts(paths: seq<string>, read: string -> DcmRead): (vs: seq<Result<Slice>>)
    ensures |vs| == |paths|
    ensures forall i | 0 <= i < |paths| :: vs[i] == Check(paths[i], read(paths[i]))
  {
    seq(|paths|, i requires 0 <= i < |paths| => Check(paths[i], read(paths[i])))
  }

  /** `load_and_validate` after its first k paths: each path goes to `valid`
      or to `failed` according to its verdict, in input order. */
  function Partition(paths: seq<string>, verdicts: seq<Result<Slice>>, k: nat): Partitioned
    requires k <= |paths| && k <= |verdicts|
  {
    if k == 0 then Partitioned([], [])
    else
      var prev := Partition(paths, verdicts, k - 1);
      var v := verdicts[k - 1];
      if v.Ok? then Partitioned(prev.valid + [v.value], prev.failed)
      else Partitioned(prev.valid, prev.failed + [Failure(paths[k - 1], v.message)])
  }

  function Oks(verdicts: seq<Result<Slice>>): (t: seq<bool>)
    ensures |t| == |verdicts|
    ensures forall i | 0 <= i < |verdicts| :: t[i] == verdicts[i].Ok?
  {
    seq(|verdicts|, i requires 0 <= i < |verdicts| => verdicts[i].Ok?)
  }

  /** The j-th valid slice is the slice the j-th accepted path read as, and the
      j-th failure is the j-th rejected path with its reason. With
      `PositionsMembers`, `PositionsIncreasing` and `PositionsCount`: every
      path lands in exactly one list, each list keeps input order, and
      `len(valid) + len(failed)` is the number of paths. */
  lemma {:induction false} PartitionOrigins(paths: seq<string>, verdicts: seq<Result<Slice>>, k: nat)
    requires k <= |paths| && k <= |verdicts|
    ensures var p := Partition(paths, verdicts, k);
            var vo := Positions(Oks(verdicts), true, k);
            var fo := Positions(Oks(verdicts), false, k);
            |p.valid| == |vo| && |p.failed| == |fo|
            && (forall j | 0 <= j < |vo| :: vo[j] < k && verdicts[vo[j]] == Ok(p.valid[j]))
            && (forall j | 0 <= j < |fo| ::
                  fo[j] < k && verdicts[fo[j]].Err? && p.failed[j] == Failure(paths[fo[j]], verdicts[fo[j]].message))
  {
    if k > 0 {
      PartitionOrigins(paths, verdicts, k - 1);
    }
  }

  /** Together: `len(valid) + len(failed) == len(paths)`. */
  lemma PartitionCount(paths: seq<string>, read: string -> DcmRead)
    ensures |Partition(paths, Verdicts(paths, read), |paths|).valid|
            + |Partition(paths, Verdicts(paths, read), |paths|).failed| == |paths|
  {
    var vs := Verdicts(paths, read);
    PartitionOrigins(paths, vs, |paths|);
    PositionsCount(Oks(vs), |paths|);
  }

  lemma StepLoaded(paths: seq<string>, verdicts: seq<Result<Slice>>, i: nat, valid: seq<Slice>,
                   failed: seq<Failure>)
    requires i < |paths| && i < |verdicts| && verdicts[i].Ok?
    requires Partition(paths, verdicts, i) == Partitioned(valid, failed)
    ensures Partition(paths, verdicts, i + 1) == Partitioned(valid + [verdicts[i].value], failed)
  {
  }

  lemma StepRejected(paths: seq<string>, verdicts: seq<Result<Slice>>, i: nat, valid: seq<Slice>,
                     failed: seq<Failure>)
    requires i < |paths| && i < |verdicts| && verdicts[i].Err?
    requires Partition(paths, verdicts, i) == Partitioned(valid, failed)
    ensures Partition(paths, verdicts, i + 1) == Partitioned(valid, failed + [Failure(paths[i], verdicts[i].message)])
  {
  }

  /** One iteration's verdict as the loop computes it. */
  method CheckPath(path: string, read: string -> DcmRead) returns (v: Result<Slice>)
    ensures v == Check(path, read(path))
  {
    var r := read(path);
    if r.ReadFailed? {
      v := Err(r.error);
    } else if r.pixels.None? {
      v := Err("No pixel data");
    } else if |FlattenGrid(r.pixels.value)| == 0 {
      v := Err("Empty pixel array");
    } else {
      v := Ok(Slice(r.ds, path, r.pixels.value));
    }
  }

  /** `load_and_validate`, with `dcmread` as the oracle `read`. */
  method LoadAndValidate(paths: seq<string>, read: string -> DcmRead)
    returns (valid: seq<Slice>, failed: seq<Failure>)
    ensures Partitioned(valid, failed) == Partition(paths, Verdicts(paths, read), |paths|)
  {
    ghost var verdicts := Verdicts(paths, read);
    valid, failed := [], [];
    var i := 0;
    while i < |paths|
      invariant 0 <= i <= |paths|
      invariant Partition(paths, verdicts, i) == Partitioned(valid, failed)
    {
      var v := CheckPath(paths[i], read);
      assert v == verdicts[i];
      if v.Ok? {
        StepLoaded(paths, verdicts, i, valid, failed);
        valid := valid + [v.value];
      } else {
        StepRejected(paths, verdicts, i, valid, failed);
        failed := failed + [Failure(paths[i], v.message)];
      }
      i := i + 1;
    }
  }

  // ---------------------------------------------------------------- the sort key

  /** `float(v)`: only a number converts. */
  function AsFloat(a: Attr): Option<real> {
    if a.Num? then Some(a.x) else None
  }

  /** `sort_key`: SliceLocation when set, else the z of a non-empty
      ImagePositionPatient, else InstanceNumber when set, else 0. `None` is a
      key that raises (an unconvertible value, a missing z). */
  function SortKey(ds: Dataset): Option<real> {
    if ds.sliceLocation.Some? && ds.sliceLocation.value != Null then
      AsFloat(ds.sliceLocation.value)
    else if ds.imagePosition.Some? && |ds.imagePosition.value| > 0 then
      if |ds.imagePosition.value| > 2 then AsFloat(ds.imagePosition.value[2]) else None
    else if ds.instanceNumber.Some? && ds.instanceNumber.value != Null then
      var n := AsFloat(ds.instanceNumber.value);
      if n.Some? then Some(Truncate(n.value) as real) else None
    else Some(0.0)
  }

  /** The precedence of the criteria: a set SliceLocation decides whatever the
      other elements hold; a dataset with none of the three sorts as 0. */
  lemma SortKeyPrecedence(ds: Dataset)
    ensures ds.sliceLocation.Some? && ds.sliceLocation.value.Num? ==>
              SortKey(ds) == Some(ds.sliceLocation.value.x)
    ensures (ds.sliceLocation.None? || ds.sliceLocation.value == Null) && ds.imagePosition.Some?
            && |ds.imagePosition.value| > 2 && ds.imagePosition.value[2].Num? ==>
              SortKey(ds) == Some(ds.imagePosition.value[2].x)
    ensures ds.sliceLocation.None? && ds.imagePosition.None? && ds.instanceNumber.None? ==>
              SortKey(ds) == Some(0.0)
  {
  }

  // ---------------------------------------------------------------- a stable sort

  /** The value a slice is ordered by: its position, or (in the fallback) its path. */
  datatype Key = ByPosition(r: real) | ByPath(p: string)

  /** Positions before paths; within a kind, Python's `<`. */
  predicate KeyLess(a: Key, b: Key) {
    match (a, b)
    case (ByPosition(x), ByPosition(y)) => x < y
    case (ByPath(x), ByPath(y)) => StrLess(x, y)
    case (ByPosition(_), ByPath(_)) => true
    case (ByPath(_), ByPosition(_)) => false
  }

  /** `sorted` is stable: i comes before j when its key is smaller, or when the
      keys are equal and i came first in the input. */
  predicate Before(keys: seq<Key>, i: nat, j: nat)
    requires i < |keys| && j < |keys|
  {
    KeyLess(keys[i], keys[j]) || (keys[i] == keys[j] && i < j)
  }

  lemma BeforeIrreflexive(keys: seq<Key>, i: nat)
    requires i < |keys|
    ensures !Before(keys, i, i)
  {
    if keys[i].ByPath? {
      StrLessIrreflexive(keys[i].p);
    }
  }

  lemma BeforeTotal(keys: seq<Key>, i: nat, j: nat)
    requires i < |keys| && j < |keys| && i != j
    ensures Before(keys, i, j) || Before(keys, j, i)
  {
    if keys[i] != keys[j] && keys[i].ByPath? && keys[j].ByPath? {
      StrLessTotal(keys[i].p, keys[j].p);
    }
  }

  lemma BeforeTransitive(keys: seq<Key>, i: nat, j: nat, k: nat)
    requires i < |keys| && j < |keys| && k < |keys|
    requires Before(keys, i, j) && Before(keys, j, k)
    ensures Before(keys, i, k)
  {
    if keys[i].ByPath? && keys[j].ByPath? && keys[k].ByPath? {
      if StrLess(keys[i].p, keys[j].p) && StrLess(keys[j].p, keys[k].p) {
        StrLessTransitive(keys[i].p, keys[j].p, keys[k].p);
      }
    }
  }

  predicate SortedBy(keys: seq<Key>, order: seq<nat>) {
    (forall a | 0 <= a < |order| :: order[a] < |keys|) &&
    forall a, b | 0 <= a < b < |order| :: order[a] < |keys| && order[b] < |keys| && Before(keys, order[a], order[b])
  }

  /** Insertion of index i after every index that does not come after it. */
  function Insert(keys: seq<Key>, order: seq<nat>, i: nat): seq<nat>
    requires i < |keys| && forall a | 0 <= a < |order| :: order[a] < |keys|
  {
    if |order| == 0 then [i]
    else if Before(keys, i, order[0]) then [i] + order
    else [order[0]] + Insert(keys, order[1..], i)
  }

  lemma {:induction false} InsertFacts(keys: seq<Key>, order: seq<nat>, i: nat)
    requires i < |keys| && SortedBy(keys, order) && i !in order
    ensures |Insert(keys, order, i)| == |order| + 1
    ensures forall x :: x in Insert(keys, order, i) <==> x in order || x == i
    ensures SortedBy(keys, Insert(keys, order, i))
  {
    if |order| > 0 && !Before(keys, i, order[0]) {
      var rest := order[1..];
      InsertFacts(keys, rest, i);
      BeforeTotal(keys, i, order[0]);
      var r := [order[0]] + Insert(keys, rest, i);
      forall b | 0 < b < |r|
        ensures Before(keys, order[0], r[b])
      {
        if r[b] != i {
          assert r[b] == Insert(keys, rest, i)[b - 1];
          assert r[b] in rest;
          var a :| 0 <= a < |rest| && rest[a] == r[b];
          assert order[a + 1] == r[b];
        }
      }
    } else if |order| > 0 {
      forall b | 0 <= b < |order|
        ensures Before(keys, i, order[b])
      {
        if b > 0 {
          BeforeTransitive(keys, i, order[0], order[b]);
        }
      }
    }
  }

  /** `sorted(range(n), key=...)` as the order of input positions. */
  function StableOrder(keys: seq<Key>, n: nat): (order: seq<nat>)
    requires n <= |keys|
    ensures |order| == n
    ensures forall x :: x in order <==> 0 <= x < n
    ensures SortedBy(keys, order)
  {
    if n == 0 then []
    else
      var prev := StableOrder(keys, n - 1);
      InsertFacts(keys, prev, n - 1);
      Insert(keys, prev, n - 1)
  }

  /** Every input position appears exactly once in the order. */
  lemma StableOrderDistinct(keys: seq<Key>, n: nat, a: nat, b: nat)
    requires n <= |keys| && a < b < n
    ensures StableOrder(keys, n)[a] != StableOrder(keys, n)[b]
  {
    var o := StableOrder(keys, n);
    if o[a] == o[b] {
      BeforeIrreflexive(keys, o[a]);
    }
  }

  // ---------------------------------------------------------------- sort_slices

  predicate AllKeyed(slices: seq<Slice>) {
    forall i | 0 <= i < |slices| :: SortKey(slices[i].ds).Some?
  }

  /** The keys `sorted` compares: the metadata keys when every one of them can
      be computed, otherwise the file paths. */
  function SortKeys(slices: seq<Slice>): (keys: seq<Key>)
    ensures |keys| == |slices|
  {
    if AllKeyed(slices) then
      seq(|slices|, i requires 0 <= i < |slices| => ByPosition(SortKey(slices[i].ds).GetOr(0.0)))
    else
      seq(|slices|, i requires 0 <= i < |slices| => ByPath(slices[i].path))
  }

  /** `slices` rearranged by a sequence of input positions. */
  function Arrange(slices: seq<Slice>, order: seq<nat>): (r: seq<Slice>)
    requires forall a | 0 <= a < |order| :: order[a] < |slices|
    ensures |r| == |order|
  {
    seq(|order|, a requires 0 <= a < |order| => slices[order[a]])
  }

  /** `sort_slices`. */
  function SortSlices(slices: seq<Slice>): (r: seq<Slice>)
    ensures |r| == |slices|
  {
    Arrange(slices, StableOrder(SortKeys(slices), |slices|))
  }

  /** The sorted list is the input rearranged by a permutation of its positions;
      the keys never decrease, and slices with equal keys keep their input
      order. When some key cannot be computed the paths are the keys. */
  lemma SortSlicesFacts(slices: seq<Slice>)
    ensures var order := StableOrder(SortKeys(slices), |slices|);
            SortSlices(slices) == Arrange(slices, order)
            && (forall i :: i in order <==> 0 <= i < |slices|)
            && (forall a, b | 0 <= a < b < |slices| ::
                  order[a] != order[b] && !KeyLess(SortKeys(slices)[order[b]], SortKeys(slices)[order[a]]))
            && (forall a, b | 0 <= a < b < |slices| ::
                  SortKeys(slices)[order[a]] == SortKeys(slices)[order[b]] ==> order[a] < order[b])
    ensures AllKeyed(slices) ==>
              forall i | 0 <= i < |slices| :: SortKeys(slices)[i] == ByPosition(SortKey(slices[i].ds).value)
    ensures !AllKeyed(slices) ==> forall i | 0 <= i < |slices| :: SortKeys(slices)[i] == ByPath(slices[i].path)
  {
    var keys := SortKeys(slices);
    var order := StableOrder(keys, |slices|);
    forall a, b | 0 <= a < b < |slices|
      ensures order[a] != order[b] && !KeyLess(keys[order[b]], keys[order[a]])
    {
      StableOrderDistinct(keys, |slices|, a, b);
      assert Before(keys, order[a], order[b]);
      if KeyLess(keys[order[b]], keys[order[a]]) {
        BeforeTransitive(keys, order[a], order[b], order[a]);
        BeforeIrreflexive(keys, order[a]);
      }
    }
    forall a, b | 0 <= a < b < |slices| && keys[order[a]] == keys[order[b]]
      ensures order[a] < order[b]
    {
      assert Before(keys, order[a], order[b]);
      if keys[order[a]].ByPath? {
        StrLessIrreflexive(keys[order[a]].p);
      }
    }
  }

  /** A key that cannot be computed sends the whole list to path order. */
  lemma OneBadKeySortsByPath(slices: seq<Slice>, i: nat)
    requires i < |slices| && SortKey(slices[i].ds).None?
    ensures SortKeys(slices) == seq(|slices|, j requires 0 <= j < |slices| => ByPath(slices[j].path))
  {
  }
}
