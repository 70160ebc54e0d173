/** The documented command-line slicer: it writes every slice of a NIfTI volume
    whose spread reaches 1 as a zero-padded JPEG under `<output>/<view>/`, and
    reports (rather than raises) any error. */
module NiftiSlicer {
  import opened Wrappers
  import opened Text
  import opened Grids
  import opened Slicing
  import SliceGenerator
  import SliceUploader

  // ---------------------------------------------------------------- files

  /** A JPEG written by `save_slice`: `<output_dir>/<view>/<index:04d>.jpg`. */
  datatype JpegFile = JpegFile(outputDir: string, view: View, index: nat) {
    function Path(): string {
      SliceGenerator.SliceDir(outputDir, view) + Pad4(index) + ".jpg"
    }
  }

  /** The path is `os.path.join(os.path.join(output_dir, view), f"{index:04d}.jpg")`. */
  lemma PathIsJoin(f: JpegFile)
    ensures f.Path() == JoinPath(JoinPath(f.outputDir, f.view.Name()), Pad4(f.index) + ".jpg")
  {
    var name := Pad4(f.index) + ".jpg";
    Pad4Digits(f.index);
    Pad4Length(f.index);
    assert name[0] == Pad4(f.index)[0];
    var d := JoinPath(f.outputDir, f.view.Name());
    assert d[|d| - 1] != '/';
  }

  /** Two slices of one view never share a file: the padded name reads back as
      its index. */
  lemma PathInjective(outputDir: string, view: View, m: nat, n: nat)
    requires JpegFile(outputDir, view, m).Path() == JpegFile(outputDir, view, n).Path()
    ensures m == n
  {
    var dir := SliceGenerator.SliceDir(outputDir, view);
    var pm, pn := dir + Pad4(m) + ".jpg", dir + Pad4(n) + ".jpg";
    assert pm == pn;
    assert |Pad4(m)| == |Pad4(n)|;
    assert Pad4(m) == pm[|dir|..|pm| - 4];
    assert Pad4(n) == pn[|dir|..|pn| - 4];
    Pad4Value(m);
    Pad4Value(n);
  }

  /** Slice 7 is written as `0007.jpg`. */
  lemma SevenIsPadded(outputDir: string, view: View)
    ensures JpegFile(outputDir, view, 7).Path() == SliceGenerator.SliceDir(outputDir, view) + "0007.jpg"
  {
    assert DecimalString(7) == "7";
    assert Zeros(3) == "000" by {
      assert Zeros(1) == "0";
      assert Zeros(2) == "00";
    }
  }

  /** `save_slice`: a slice with `std < 1` is skipped (False, nothing written);
      otherwise it is written under its own index (True). */
  function SaveSlice(g: Image, outputDir: string, view: View, index: nat): (r: Option<JpegFile>)
    ensures r.None? <==> ScriptSkips(g)
    ensures r.Some? ==> r.value.index == index && r.value.view == view && r.value.outputDir == outputDir
  {
    if ScriptSkips(g) then None else Some(JpegFile(outputDir, view, index))
  }

  /** Every slice the service would keep is written by this script too. */
  lemma ServiceSlicesWritten(g: Image, outputDir: string, view: View, index: nat)
    requires IsValidSlice(g)
    ensures SaveSlice(g, outputDir, view, index) == Some(JpegFile(outputDir, view, index))
  {
    ValidNotSkipped(g);
  }

  // ---------------------------------------------------------------- one view

  /** The files the inner loop has written after its first k slices, given which
      slices are kept. */
  function ViewFiles(keep: seq<bool>, outputDir: string, view: View, k: nat): seq<JpegFile>
    requires k <= |keep|
  {
    if k == 0 then []
    else
      var prev := ViewFiles(keep, outputDir, view, k - 1);
      if keep[k - 1] then prev + [JpegFile(outputDir, view, k - 1)] else prev
  }

  /** `view_saved` counts the kept slices. */
  lemma {:induction false} ViewFilesCount(keep: seq<bool>, outputDir: string, view: View, k: nat)
    requires k <= |keep|
    ensures |ViewFiles(keep, outputDir, view, k)| == CountValid(keep, k)
  {
    if k > 0 {
      ViewFilesCount(keep, outputDir, view, k - 1);
    }
  }

  /** `view_saved` counts the kept slices; the files are exactly the kept slices,
      each under its own index, in increasing order. */
  lemma {:induction false} ViewFilesFacts(keep: seq<bool>, outputDir: string, view: View, k: nat)
    requires k <= |keep|
    ensures |ViewFiles(keep, outputDir, view, k)| == CountValid(keep, k)
    ensures forall j | 0 <= j < |ViewFiles(keep, outputDir, view, k)| ::
              var f := ViewFiles(keep, outputDir, view, k)[j];
              f.outputDir == outputDir && f.view == view && f.index < k && keep[f.index]
    ensures forall i | 0 <= i < k && keep[i] :: JpegFile(outputDir, view, i) in ViewFiles(keep, outputDir, view, k)
    ensures forall a, b | 0 <= a < b < |ViewFiles(keep, outputDir, view, k)| ::
              ViewFiles(keep, outputDir, view, k)[a].index < ViewFiles(keep, outputDir, view, k)[b].index
  {
    if k > 0 {
      ViewFilesFacts(keep, outputDir, view, k - 1);
    }
  }

  lemma StepKept(keep: seq<bool>, outputDir: string, view: View, i: nat, files: seq<JpegFile>)
    requires i < |keep| && keep[i]
    requires ViewFiles(keep, outputDir, view, i) == files
    ensures ViewFiles(keep, outputDir, view, i + 1) == files + [JpegFile(outputDir, view, i)]
  {
  }

  lemma StepSkipped(keep: seq<bool>, outputDir: string, view: View, i: nat, files: seq<JpegFile>)
    requires i < |keep| && !keep[i]
    requires ViewFiles(keep, outputDir, view, i) == files
    ensures ViewFiles(keep, outputDir, view, i + 1) == files
  {
  }

  /** The inner `for i in range(num_slices)` loop of one view. */
  method SaveViewSlices(keep: seq<bool>, outputDir: string, view: View)
    returns (files: seq<JpegFile>, viewSaved: nat)
    ensures files == ViewFiles(keep, outputDir, view, |keep|)
    ensures viewSaved == |files|
  {
    files, viewSaved := [], 0;
    var i := 0;
    while i < |keep|
      invariant 0 <= i <= |keep|
      invariant files == ViewFiles(keep, outputDir, view, i)
      invariant viewSaved == |files|
    {
      if keep[i] {
        StepKept(keep, outputDir, view, i, files);
        files := files + [JpegFile(outputDir, view, i)];
        viewSaved := viewSaved + 1;
      } else {
        StepSkipped(keep, outputDir, view, i, files);
      }
      i := i + 1;
    }
  }

  // ---------------------------------------------------------------- all views

  /** After the first n views: each view's `view_saved` and every file written. */
  datatype Saved = Saved(perView: seq<nat>, files: seq<JpegFile>)

  function AllSaved(ks: seq<seq<bool>>, outputDir: string, n: nat): (s: Saved)
    requires n <= |Views| <= |ks|
    ensures |s.perView| == n
  {
    if n == 0 then Saved([], [])
    else
      var prev := AllSaved(ks, outputDir, n - 1);
      var files := ViewFiles(ks[n - 1], outputDir, Views[n - 1], |ks[n - 1]|);
      Saved(prev.perView + [|files|], prev.files + files)
  }

  /** Each view's `view_saved` is its number of kept slices. */
  lemma {:induction false} AllSavedCounts(ks: seq<seq<bool>>, outputDir: string, n: nat)
    requires n <= |Views| <= |ks|
    ensures forall j | 0 <= j < n :: AllSaved(ks, outputDir, n).perView[j] == CountValid(ks[j], |ks[j]|)
  {
    if n > 0 {
      AllSavedCounts(ks, outputDir, n - 1);
      ViewFilesCount(ks[n - 1], outputDir, Views[n - 1], |ks[n - 1]|);
      var prev, s := AllSaved(ks, outputDir, n - 1), AllSaved(ks, outputDir, n);
      assert s.perView == prev.perView + [CountValid(ks[n - 1], |ks[n - 1]|)];
    }
  }

  /** `total_saved`, the number of files written, is the sum of the per-view
      counts. */
  lemma {:induction false} AllSavedTotal(ks: seq<seq<bool>>, outputDir: string, n: nat)
    requires n <= |Views| <= |ks|
    ensures |AllSaved(ks, outputDir, n).files| == SliceUploader.SumFirst(AllSaved(ks, outputDir, n).perView, n)
  {
    if n > 0 {
      AllSavedTotal(ks, outputDir, n - 1);
      var prev, s := AllSaved(ks, outputDir, n - 1), AllSaved(ks, outputDir, n);
      assert s.perView[..n - 1] == prev.perView;
      SliceUploader.SumFirstPrefix(s.perView, prev.perView, n - 1);
    }
  }

  /** `total_saved` is the sum of the per-view counts, each view's count is its
      number of kept slices, and the total equals the files written. */
  lemma AllSavedFacts(ks: seq<seq<bool>>, outputDir: string, n: nat)
    requires n <= |Views| <= |ks|
    ensures |AllSaved(ks, outputDir, n).files| == SliceUploader.SumFirst(AllSaved(ks, outputDir, n).perView, n)
    ensures forall j | 0 <= j < n :: AllSaved(ks, outputDir, n).perView[j] == CountValid(ks[j], |ks[j]|)
  {
    AllSavedTotal(ks, outputDir, n);
    AllSavedCounts(ks, outputDir, n);
  }

  /** Files of different views lie in different directories, and files of one
      view have distinct indices: no file is written twice. */
  lemma {:induction false} AllSavedDistinct(ks: seq<seq<bool>>, outputDir: string, n: nat)
    requires n <= |Views| <= |ks|
    ensures forall a, b | 0 <= a < b < |AllSaved(ks, outputDir, n).files| ::
              AllSaved(ks, outputDir, n).files[a] != AllSaved(ks, outputDir, n).files[b]
    ensures forall j | 0 <= j < |AllSaved(ks, outputDir, n).files| ::
              AllSaved(ks, outputDir, n).files[j].view in Views[..n]
  {
    if n > 0 {
      var prev := AllSaved(ks, outputDir, n - 1);
      var files := ViewFiles(ks[n - 1], outputDir, Views[n - 1], |ks[n - 1]|);
      AllSavedDistinct(ks, outputDir, n - 1);
      ViewFilesFacts(ks[n - 1], outputDir, Views[n - 1], |ks[n - 1]|);
      var all := prev.files + files;
      assert Views[n - 1] !in Views[..n - 1];
      assert Views[..n] == Views[..n - 1] + [Views[n - 1]];
      forall a, b | 0 <= a < b < |all|
        ensures all[a] != all[b]
      {
        if b >= |prev.files| && a < |prev.files| {
          assert all[a].view in Views[..n - 1];
          assert all[b] == files[b - |prev.files|];
        } else if a >= |prev.files| {
          assert all[a] == files[a - |prev.files|];
          assert all[b] == files[b - |prev.files|];
        }
      }
      forall j | 0 <= j < |all|
        ensures all[j].view in Views[..n]
      {
        if j >= |prev.files| {
          assert all[j] == files[j - |prev.files|];
        }
      }
    }
  }

  lemma AllStep(ks: seq<seq<bool>>, outputDir: string, n: nat, files: seq<JpegFile>)
    requires n < |Views| <= |ks|
    requires files == ViewFiles(ks[n], outputDir, Views[n], |ks[n]|)
    ensures AllSaved(ks, outputDir, n + 1)
            == Saved(AllSaved(ks, outputDir, n).perView + [|files|], AllSaved(ks, outputDir, n).files + files)
  {
  }

  /** The outer `for view in VIEWS` loop over the keep vectors of the three views. */
  method SaveViews(ks: seq<seq<bool>>, outputDir: string) returns (saved: Saved, totalSaved: nat)
    requires |ks| == |Views|
    ensures saved == AllSaved(ks, outputDir, |Views|)
    ensures totalSaved == SliceUploader.SumFirst(saved.perView, |Views|)
  {
    saved := Saved([], []);
    totalSaved := 0;
    var vi := 0;
    while vi < |Views|
      invariant 0 <= vi <= |Views|
      invariant saved == AllSaved(ks, outputDir, vi)
      invariant totalSaved == SliceUploader.SumFirst(saved.perView, vi)
    {
      var files, viewSaved := SaveViewSlices(ks[vi], outputDir, Views[vi]);
      AllStep(ks, outputDir, vi, files);
      ghost var before := saved.perView;
      saved := Saved(saved.perView + [viewSaved], saved.files + files);
      assert saved.perView[..vi] == before;
      SliceUploader.SumFirstPrefix(saved.perView, before, vi);
      totalSaved := totalSaved + viewSaved;
      vi := vi + 1;
    }
  }

  // ---------------------------------------------------------------- the workflow

  /** numpy's complaint when the minimum of an empty volume is taken. */
  const EmptyVolumeError: string := "zero-size array to reduction operation minimum which has no identity"

  /** How `process_file` ended: the files written and `total_saved`, or the
      message of the exception it caught and printed. */
  datatype Outcome = Finished(saved: Saved, totalSaved: nat) | Reported(error: string)

  /** `process_file`: the loader's result is an input; a load error and the
      error of normalising an empty volume are caught, so nothing is written and
      nothing propagates. */
  method ProcessFile(load: Result<Loaded>, outputDir: string) returns (outcome: Outcome)
    requires load.Ok? ==> HasShape(load.value.volume, load.value.shape)
    ensures load.Err? ==> outcome == Reported(load.message)
    ensures load.Ok? && load.value.shape.Size() == 0 ==> outcome == Reported(EmptyVolumeError)
    ensures load.Ok? && load.value.shape.Size() > 0 ==>
              var ks := AllScriptKeeps(NormalizeVolume(load.value.volume, load.value.shape), load.value.shape);
              outcome == Finished(AllSaved(ks, outputDir, |Views|),
                                  SliceUploader.SumFirst(AllSaved(ks, outputDir, |Views|).perView, |Views|))
  {
    if load.Err? {
      return Reported(load.message);
    }
    var volume, s := load.value.volume, load.value.shape;
    if s.Size() == 0 {
      return Reported(EmptyVolumeError);
    }
    var norm := NormalizeVolume(volume, s);
    var ks := AllScriptKeeps(norm, s);
    var saved, totalSaved := SaveViews(ks, outputDir);
    outcome := Finished(saved, totalSaved);
  }
}
