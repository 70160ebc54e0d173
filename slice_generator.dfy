/** `SliceGenerator.save_slice` and `generate_all_slices`: the local-disk slicer
    of the service. The volume is normalised once; then each view in the order
    axial, coronal, sagittal walks its axis, and every valid slice is written as
    `<output_dir>/<view>/<n>.jpg`, where n is the number of slices of that view
    saved so far. The files written are returned as a list (the file system is
    the method's only effect); JPEG encoding is not modelled. */
module SliceGenerator {
  import opened Wrappers
  import opened Text
  import opened Grids
  import opened Slicing

  /** One call of the optional progress callback: `(view, current, total)`. */
  datatype Progress = Progress(view: string, current: nat, total: nat)

  /** The directory of one view's slices, with its trailing separator. */
  function SliceDir(outputDir: string, view: View): string {
    JoinPath(outputDir, view.Name()) + "/"
  }

  /** Path of slice `index` of a view: `<output_dir>/<view>/<index>.jpg`. */
  function SlicePath(outputDir: string, view: View, index: nat): string {
    SliceDir(outputDir, view) + DecimalString(index) + ".jpg"
  }

  /** The path is `os.path.join(os.path.join(output_dir, view), f"{index}.jpg")`:
      the view name neither is empty nor ends in '/', and the file name does not
      start with '/'. */
  lemma SlicePathIsJoin(outputDir: string, view: View, index: nat)
    ensures SlicePath(outputDir, view, index)
      == JoinPath(JoinPath(outputDir, view.Name()), DecimalString(index) + ".jpg")
  {
    var name := DecimalString(index) + ".jpg";
    DecimalStringDigits(index);
    assert name[0] == DecimalString(index)[0];
    var d := JoinPath(outputDir, view.Name());
    assert d[|d| - 1] != '/';
  }

  /** Distinct indices of one view never share a file. */
  lemma SlicePathInjective(outputDir: string, view: View, m: nat, n: nat)
    requires SlicePath(outputDir, view, m) == SlicePath(outputDir, view, n)
    ensures m == n
  {
    var dir := SliceDir(outputDir, view);
    var pm, pn := dir + DecimalString(m) + ".jpg", dir + DecimalString(n) + ".jpg";
    assert pm == pn;
    assert |DecimalString(m)| == |DecimalString(n)|;
    assert DecimalString(m) == pm[|dir|..|pm| - 4];
    assert DecimalString(n) == pn[|dir|..|pn| - 4];
    DecimalStringInjective(m, n);
  }

  /** A JPEG file written by `save_slice`; `Path()` is the path it returns. */
  datatype SliceFile = SliceFile(outputDir: string, view: View, index: nat) {
    function Path(): string { SlicePath(outputDir, view, index) }
  }

  /** `save_slice`: an invalid slice writes nothing and yields None; a valid one is
      written as `index`.jpg of its view, and that file (whose path the source
      returns) is the result. */
  function SaveSlice(g: Image, outputDir: string, view: View, index: nat): (r: Option<SliceFile>)
    ensures r.None? <==> !IsValidSlice(g)
    ensures r.Some? ==> r.value == SliceFile(outputDir, view, index)
  {
    if !IsValidSlice(g) then None else Some(SliceFile(outputDir, view, index))
  }

  // ---------------------------------------------------------------- one view

  /** The files one view has written after its first k slices; `valid` says which
      slices pass the check. Each valid slice is saved under the running count. */
  function ViewSaves(valid: seq<bool>, view: View, outputDir: string, k: nat): (files: seq<SliceFile>)
    requires k <= |valid|
    ensures |files| == CountValid(valid, k)
  {
    if k == 0 then []
    else
      var prev := ViewSaves(valid, view, outputDir, k - 1);
      if valid[k - 1] then prev + [SliceFile(outputDir, view, |prev|)] else prev
  }

  /** The j-th file of a view is j.jpg: the files are exactly 0.jpg .. (n-1).jpg,
      in that order, one per valid slice. */
  lemma {:induction false} ViewSaveAt(valid: seq<bool>, view: View, outputDir: string, k: nat, j: nat)
    requires k <= |valid| && j < |ViewSaves(valid, view, outputDir, k)|
    ensures ViewSaves(valid, view, outputDir, k)[j] == SliceFile(outputDir, view, j)
  {
    var prev := ViewSaves(valid, view, outputDir, k - 1);
    if j < |prev| {
      ViewSaveAt(valid, view, outputDir, k - 1, j);
    }
  }

  /** A view with no valid slice writes nothing; one whose slices are all valid
      writes one file per slice. */
  lemma {:induction false} ViewSavesExtremes(valid: seq<bool>, view: View, outputDir: string, k: nat)
    requires k <= |valid|
    ensures (forall i | 0 <= i < k :: !valid[i]) ==> ViewSaves(valid, view, outputDir, k) == []
    ensures (forall i | 0 <= i < k :: valid[i]) ==> |ViewSaves(valid, view, outputDir, k)| == k
  {
    if k > 0 {
      ViewSavesExtremes(valid, view, outputDir, k - 1);
    }
  }

  /** The progress calls of one view after its first k slices: one for every raw
      index divisible by 20, whether or not that slice was valid. */
  function ViewProgress(view: View, total: nat, hasCallback: bool, k: nat): seq<Progress> {
    if k == 0 then []
    else
      var prev := ViewProgress(view, total, hasCallback, k - 1);
      if hasCallback && (k - 1) % 20 == 0 then prev + [Progress(view.Name(), k - 1, total)]
      else prev
  }

  /** Without a callback nothing is reported; with one, every call names the view
      and its depth, and reports a raw index below k that is a multiple of 20. */
  lemma {:induction false} ViewProgressCalls(view: View, total: nat, hasCallback: bool, k: nat)
    ensures !hasCallback ==> ViewProgress(view, total, hasCallback, k) == []
    ensures forall c | c in ViewProgress(view, total, hasCallback, k) ::
      c.view == view.Name() && c.total == total && c.current < k && c.current % 20 == 0
  {
    if k > 0 {
      ViewProgressCalls(view, total, hasCallback, k - 1);
    }
  }

  /** With a callback, a view of k slices reports exactly ceil(k / 20) times, at
      0, 20, 40, ... */
  lemma {:induction false} ViewProgressCount(view: View, total: nat, k: nat)
    ensures |ViewProgress(view, total, true, k)| == (k + 19) / 20
    ensures forall n | 0 <= n < |ViewProgress(view, total, true, k)| ::
      ViewProgress(view, total, true, k)[n].current == 20 * n
  {
    if k > 0 {
      ViewProgressCount(view, total, k - 1);
    }
  }

  // ---------------------------------------------------------------- all views

  /** The files of view n, which walks its whole axis. */
  function FilesOf(vs: seq<seq<bool>>, outputDir: string, n: nat): seq<SliceFile>
    requires n < |Views| <= |vs|
  {
    ViewSaves(vs[n], Views[n], outputDir, |vs[n]|)
  }

  /** Files written by the first n views of the traversal. */
  function AllSaves(vs: seq<seq<bool>>, outputDir: string, n: nat): seq<SliceFile>
    requires n <= |Views| <= |vs|
  {
    if n == 0 then [] else AllSaves(vs, outputDir, n - 1) + FilesOf(vs, outputDir, n - 1)
  }

  /** Progress calls made by the first n views. */
  function AllProgress(s: Shape, hasCallback: bool, n: nat): seq<Progress>
    requires n <= |Views|
  {
    if n == 0 then []
    else
      var view := Views[n - 1];
      AllProgress(s, hasCallback, n - 1) + ViewProgress(view, s.Dim(view.Axis()), hasCallback, s.Dim(view.Axis()))
  }

  /** The number of files each view writes, in traversal order. */
  function Sizes(vs: seq<seq<bool>>, outputDir: string): (sizes: seq<nat>)
    requires |Views| <= |vs|
    ensures |sizes| == |Views|
    ensures forall n | 0 <= n < |Views| :: sizes[n] == |FilesOf(vs, outputDir, n)|
  {
    seq(|Views|, n requires 0 <= n < |Views| => |FilesOf(vs, outputDir, n)|)
  }

  /** `slice_counts` after the three views: each view name maps to the number of
      valid slices of that view, which is at most the view's depth. */
  lemma CountsAreValidSlices(vs: seq<seq<bool>>, outputDir: string)
    requires |vs| == |Views|
    ensures CountsMap(Sizes(vs, outputDir), 3) == map[
      "axial" := CountValid(vs[0], |vs[0]|),
      "coronal" := CountValid(vs[1], |vs[1]|),
      "sagittal" := CountValid(vs[2], |vs[2]|)]
  {
    CountsMapFull(Sizes(vs, outputDir));
  }

  /** The counts sum to the number of files written. */
  lemma TotalIsFilesWritten(vs: seq<seq<bool>>, outputDir: string)
    requires |vs| == |Views|
    ensures TotalOf(CountsMap(Sizes(vs, outputDir), 3)) == |AllSaves(vs, outputDir, 3)|
  {
    CountsMapFull(Sizes(vs, outputDir));
    var a, c, g := FilesOf(vs, outputDir, 0), FilesOf(vs, outputDir, 1), FilesOf(vs, outputDir, 2);
    assert AllSaves(vs, outputDir, 1) == a;
    assert AllSaves(vs, outputDir, 2) == a + c;
    assert AllSaves(vs, outputDir, 3) == a + c + g;
  }

  /** What one more view adds to the files, the counts and the progress calls. */
  lemma ViewsStep(vs: seq<seq<bool>>, outputDir: string, s: Shape, hasCallback: bool, n: nat)
    requires n < |Views| <= |vs|
    ensures AllSaves(vs, outputDir, n + 1) == AllSaves(vs, outputDir, n) + FilesOf(vs, outputDir, n)
    ensures AllProgress(s, hasCallback, n + 1) == AllProgress(s, hasCallback, n)
      + ViewProgress(Views[n], s.Dim(Views[n].Axis()), hasCallback, s.Dim(Views[n].Axis()))
  {
  }

  /** What one more slice adds to a view's files and progress calls. */
  lemma ViewStep(valid: seq<bool>, view: View, outputDir: string, total: nat, hasCallback: bool, i: nat)
    requires i < |valid|
    ensures ViewSaves(valid, view, outputDir, i + 1)
      == var prev := ViewSaves(valid, view, outputDir, i);
         if valid[i] then prev + [SliceFile(outputDir, view, |prev|)] else prev
    ensures ViewProgress(view, total, hasCallback, i + 1)
      == var prev := ViewProgress(view, total, hasCallback, i);
         if hasCallback && i % 20 == 0 then prev + [Progress(view.Name(), i, total)] else prev
  {
  }

  /** One step of a view's walk: extract slice i and hand it to `save_slice` under
      the running count. */
  method SaveViewSlice(norm: seq<seq<seq<int>>>, s: Shape, view: View, outputDir: string, i: nat, savedCount: nat)
    returns (saved: Option<SliceFile>)
    requires HasShape(norm, s) && i < s.Dim(view.Axis())
    ensures saved == if SliceValidity(norm, s, view.Axis())[i] then Some(SliceFile(outputDir, view, savedCount)) else None
  {
    var sliceData := ExtractSlice(norm, s, view.Axis(), i);
    saved := SaveSlice(sliceData, outputDir, view, savedCount);
  }

  /** One view of `generate_all_slices`: the files written, the progress calls
      made and the final `saved_count`. */
  method GenerateView(norm: seq<seq<seq<int>>>, s: Shape, view: View, outputDir: string, hasCallback: bool)
    returns (files: seq<SliceFile>, calls: seq<Progress>, savedCount: nat)
    requires HasShape(norm, s)
    ensures files == ViewSaves(SliceValidity(norm, s, view.Axis()), view, outputDir, s.Dim(view.Axis()))
    ensures calls == ViewProgress(view, s.Dim(view.Axis()), hasCallback, s.Dim(view.Axis()))
    ensures savedCount == |files|
  {
    var axis := view.Axis();
    var sliceCount := s.Dim(axis);
    ghost var valid := SliceValidity(norm, s, axis);
    files, calls, savedCount := [], [], 0;
    var i := 0;
    while i < sliceCount
      invariant 0 <= i <= sliceCount
      invariant files == ViewSaves(valid, view, outputDir, i)
      invariant savedCount == |files|
      invariant calls == ViewProgress(view, sliceCount, hasCallback, i)
    {
      var saved := SaveViewSlice(norm, s, view, outputDir, i, savedCount);
      ViewStep(valid, view, outputDir, sliceCount, hasCallback, i);
      if saved.Some? {
        files := files + [saved.value];
        savedCount := savedCount + 1;
      }
      if hasCallback && i % 20 == 0 {
        calls := calls + [Progress(view.Name(), i, sliceCount)];
      }
      i := i + 1;
    }
  }

  /** One pass of the loop of `generate_all_slices`: view `vi` is generated and
      its files, progress calls and count are added. */
  method GenerateNextView(norm: seq<seq<seq<int>>>, s: Shape, outputDir: string, hasCallback: bool, vi: nat,
                          counts: map<string, nat>, written: seq<SliceFile>, progress: seq<Progress>)
    returns (nextCounts: map<string, nat>, nextWritten: seq<SliceFile>, nextProgress: seq<Progress>)
    requires HasShape(norm, s) && vi < |Views|
    requires counts == CountsMap(Sizes(Validities(norm, s), outputDir), vi)
    requires written == AllSaves(Validities(norm, s), outputDir, vi)
    requires progress == AllProgress(s, hasCallback, vi)
    ensures nextCounts == CountsMap(Sizes(Validities(norm, s), outputDir), vi + 1)
    ensures nextWritten == AllSaves(Validities(norm, s), outputDir, vi + 1)
    ensures nextProgress == AllProgress(s, hasCallback, vi + 1)
  {
    ghost var vs := Validities(norm, s);
    var view := Views[vi];
    var files, calls, savedCount := GenerateView(norm, s, view, outputDir, hasCallback);
    assert files == FilesOf(vs, outputDir, vi) by {
      assert vs[vi] == SliceValidity(norm, s, view.Axis());
    }
    ViewsStep(vs, outputDir, s, hasCallback, vi);
    nextWritten := written + files;
    nextProgress := progress + calls;
    nextCounts := counts[view.Name() := savedCount];
  }

  /** The loop of `generate_all_slices` over the three views of a normalised
      volume. */
  method GenerateViews(norm: seq<seq<seq<int>>>, s: Shape, outputDir: string, hasCallback: bool)
    returns (counts: map<string, nat>, written: seq<SliceFile>, progress: seq<Progress>)
    requires HasShape(norm, s)
    ensures counts == CountsMap(Sizes(Validities(norm, s), outputDir), 3)
    ensures written == AllSaves(Validities(norm, s), outputDir, 3)
    ensures progress == AllProgress(s, hasCallback, 3)
  {
    counts, written, progress := map[], [], [];
    var vi := 0;
    while vi < |Views|
      invariant 0 <= vi <= |Views|
      invariant counts == CountsMap(Sizes(Validities(norm, s), outputDir), vi)
      invariant written == AllSaves(Validities(norm, s), outputDir, vi)
      invariant progress == AllProgress(s, hasCallback, vi)
    {
      counts, written, progress := GenerateNextView(norm, s, outputDir, hasCallback, vi, counts, written, progress);
      vi := vi + 1;
    }
  }

  /** `generate_all_slices`: normalises once, then runs the three views in order;
      returns the per-view counts, and the files it writes and the progress calls
      it makes, in order. */
  method GenerateAllSlices(volume: Volume, s: Shape, outputDir: string, hasCallback: bool)
    returns (counts: map<string, nat>, written: seq<SliceFile>, progress: seq<Progress>)
    requires HasShape(volume, s) && s.Size() > 0
    ensures counts == CountsMap(Sizes(Validities(NormalizeVolume(volume, s), s), outputDir), 3)
    ensures written == AllSaves(Validities(NormalizeVolume(volume, s), s), outputDir, 3)
    ensures progress == AllProgress(s, hasCallback, 3)
  {
    var norm := NormalizeVolume(volume, s);
    counts, written, progress := GenerateViews(norm, s, outputDir, hasCallback);
  }
}
