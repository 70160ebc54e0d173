/** The stand-alone script that slices a local NIfTI file and uploads every slice
    with spread to the `reports` bucket under the report type "cbct". Unlike the
    service's uploader it has no per-view cap, names each object by the slice's
    raw index along the axis, and skips a slice by `std < 1`. */
module LocalNiftiUploader {
  import opened Wrappers
  import opened Text
  import opened Grids
  import opened Slicing
  import SliceUploader

  type Report = SliceUploader.Report
  type UploadTarget = SliceUploader.UploadTarget

  // ---------------------------------------------------------------- configuration

  /** The marker of an unfilled configuration value (`YOUR_SUPABASE_URL_HERE`). */
  const Placeholder: string := "YOUR_SUPABASE"
  const DefaultUrl: string := "YOUR_SUPABASE_URL_HERE"
  const DefaultKey: string := "YOUR_SUPABASE_KEY_HERE"

  /** A credential is usable when it is non-empty and not a placeholder. */
  predicate Usable(credential: string) {
    credential != "" && !Contains(credential, Placeholder)
  }

  /** The storage client, identified by the credentials it was created with. */
  datatype Client = Client(url: string, key: string)

  const BadUrl := "Please provide a valid SUPABASE_URL"
  const BadKey := "Please provide a valid SUPABASE_KEY"

  /** `NiftiUploader.__init__`: the URL is checked before the key, and either
      failure raises `ValueError` with its own message. */
  function NewUploader(url: string, key: string): (r: Result<Client>)
    ensures r.Ok? <==> Usable(url) && Usable(key)
    ensures r.Ok? ==> r.value == Client(url, key)
    ensures !Usable(url) ==> r == Err(BadUrl)
    ensures Usable(url) && !Usable(key) ==> r == Err(BadKey)
  {
    if !Usable(url) then Err(BadUrl)
    else if !Usable(key) then Err(BadKey)
    else Ok(Client(url, key))
  }

  /** Any URL that embeds the placeholder is refused, whatever the key, and the
      complaint names the URL. */
  lemma PlaceholderUrlRejected(prefix: string, suffix: string, key: string)
    ensures NewUploader(prefix + Placeholder + suffix, key) == Err(BadUrl)
  {
    ContainsConcat(prefix, Placeholder, suffix);
  }

  /** A usable URL with a key that embeds the placeholder is refused, and the
      complaint names the key. */
  lemma PlaceholderKeyRejected(url: string, prefix: string, suffix: string)
    requires Usable(url)
    ensures NewUploader(url, prefix + Placeholder + suffix) == Err(BadKey)
  {
    ContainsConcat(prefix, Placeholder, suffix);
  }

  /** The script's built-in defaults never create a client. */
  lemma DefaultsRejected()
    ensures NewUploader(DefaultUrl, DefaultKey) == Err(BadUrl)
  {
    assert DefaultUrl == [] + Placeholder + "_URL_HERE";
    PlaceholderUrlRejected([], "_URL_HERE", DefaultKey);
  }

  // ---------------------------------------------------------------- one view

  /** The objects one view uploaded and the upload attempts it made. */
  datatype Tally = Tally(uploaded: seq<UploadTarget>, attempts: nat)

  /** The script's storage path for slice i of a view: the raw index, not a
      running count. */
  function ScriptTarget(report: Report, view: View, i: nat): UploadTarget {
    SliceUploader.UploadTarget(report, view, i)
  }

  /** The inner loop after its first k slices. A skipped slice is not attempted;
      a kept slice is attempted once (attempt number `base + attempts`), and
      `ok` says whether `upload_slice` returned True for it. */
  function ViewTally(keep: seq<bool>, report: Report, view: View, ok: nat -> bool,
                     base: nat, k: nat): Tally
    requires k <= |keep|
  {
    if k == 0 then Tally([], 0)
    else
      var prev := ViewTally(keep, report, view, ok, base, k - 1);
      if !keep[k - 1] then prev
      else if ok(base + prev.attempts) then
        Tally(prev.uploaded + [ScriptTarget(report, view, k - 1)], prev.attempts + 1)
      else Tally(prev.uploaded, prev.attempts + 1)
  }

  /** Every kept slice is attempted exactly once, and no more objects are
      uploaded than slices kept. */
  lemma {:induction false} ViewTallyCounts(keep: seq<bool>, report: Report, view: View,
                                           ok: nat -> bool, base: nat, k: nat)
    requires k <= |keep|
    ensures ViewTally(keep, report, view, ok, base, k).attempts == CountValid(keep, k)
    ensures |ViewTally(keep, report, view, ok, base, k).uploaded| <= CountValid(keep, k)
  {
    if k > 0 {
      ViewTallyCounts(keep, report, view, ok, base, k - 1);
    }
  }

  /** Every uploaded object is a kept slice of this view, and the uploaded
      indices strictly increase (so no object is written twice and
      `view_uploaded` counts distinct slices). */
  lemma {:induction false} ViewTallyTargets(keep: seq<bool>, report: Report, view: View,
                                            ok: nat -> bool, base: nat, k: nat)
    requires k <= |keep|
    ensures forall j | 0 <= j < |ViewTally(keep, report, view, ok, base, k).uploaded| ::
              var t := ViewTally(keep, report, view, ok, base, k).uploaded[j];
              t.report == report && t.view == view && t.index < k && keep[t.index]
    ensures forall a, b | 0 <= a < b < |ViewTally(keep, report, view, ok, base, k).uploaded| ::
              ViewTally(keep, report, view, ok, base, k).uploaded[a].index
                < ViewTally(keep, report, view, ok, base, k).uploaded[b].index
  {
    if k > 0 {
      ViewTallyTargets(keep, report, view, ok, base, k - 1);
    }
  }

  /** With a storage that accepts every upload, every kept slice is uploaded,
      under its own index. */
  lemma {:induction false} ReliableUploadsAll(keep: seq<bool>, report: Report, view: View,
                                              ok: nat -> bool, base: nat, k: nat)
    requires k <= |keep|
    requires forall a: nat :: ok(a)
    ensures |ViewTally(keep, report, view, ok, base, k).uploaded| == CountValid(keep, k)
    ensures forall i | 0 <= i < k && keep[i] ::
              ScriptTarget(report, view, i) in ViewTally(keep, report, view, ok, base, k).uploaded
  {
    if k > 0 {
      ReliableUploadsAll(keep, report, view, ok, base, k - 1);
    }
  }

  /** With a storage that refuses everything, nothing is uploaded although every
      kept slice is still attempted. */
  lemma {:induction false} FailingUploadsNone(keep: seq<bool>, report: Report, view: View,
                                              ok: nat -> bool, base: nat, k: nat)
    requires k <= |keep|
    requires forall a: nat :: !ok(a)
    ensures ViewTally(keep, report, view, ok, base, k).uploaded == []
  {
    if k > 0 {
      FailingUploadsNone(keep, report, view, ok, base, k - 1);
    }
  }

  /** Object names follow the raw index, so a skipped slice leaves a gap: with
      slice 0 skipped and slice 1 kept, the only object is `1.jpg`. */
  lemma IndicesKeepGaps(report: Report, view: View, ok: nat -> bool)
    requires forall a: nat :: ok(a)
    ensures ViewTally([false, true], report, view, ok, 0, 2).uploaded == [ScriptTarget(report, view, 1)]
  {
    assert ViewTally([false, true], report, view, ok, 0, 1) == Tally([], 0);
    assert ok(0);
  }

  lemma StepSkipped(keep: seq<bool>, report: Report, view: View, ok: nat -> bool,
                    base: nat, i: nat, t: Tally)
    requires i < |keep| && !keep[i]
    requires ViewTally(keep, report, view, ok, base, i) == t
    ensures ViewTally(keep, report, view, ok, base, i + 1) == t
  {
  }

  lemma StepUploaded(keep: seq<bool>, report: Report, view: View, ok: nat -> bool,
                     base: nat, i: nat, t: Tally)
    requires i < |keep| && keep[i] && ok(base + t.attempts)
    requires ViewTally(keep, report, view, ok, base, i) == t
    ensures ViewTally(keep, report, view, ok, base, i + 1)
            == Tally(t.uploaded + [ScriptTarget(report, view, i)], t.attempts + 1)
  {
  }

  lemma StepRefused(keep: seq<bool>, report: Report, view: View, ok: nat -> bool,
                    base: nat, i: nat, t: Tally)
    requires i < |keep| && keep[i] && !ok(base + t.attempts)
    requires ViewTally(keep, report, view, ok, base, i) == t
    ensures ViewTally(keep, report, view, ok, base, i + 1) == Tally(t.uploaded, t.attempts + 1)
  {
  }

  /** The inner `for i in range(num_slices)` loop of one view. */
  method UploadKeptSlices(keep: seq<bool>, report: Report, view: View, ok: nat -> bool, base: nat)
    returns (uploaded: seq<UploadTarget>, attempts: nat)
    ensures Tally(uploaded, attempts) == ViewTally(keep, report, view, ok, base, |keep|)
  {
    uploaded, attempts := [], 0;
    var i := 0;
    while i < |keep|
      invariant 0 <= i <= |keep|
      invariant ViewTally(keep, report, view, ok, base, i) == Tally(uploaded, attempts)
    {
      ghost var t := Tally(uploaded, attempts);
      if !keep[i] {
        StepSkipped(keep, report, view, ok, base, i, t);
        i := i + 1;
        continue;
      }
      if ok(base + attempts) {
        StepUploaded(keep, report, view, ok, base, i, t);
        uploaded := uploaded + [ScriptTarget(report, view, i)];
      } else {
        StepRefused(keep, report, view, ok, base, i, t);
      }
      attempts := attempts + 1;
      i := i + 1;
    }
  }

  // ---------------------------------------------------------------- all views

  /** After the first n views: each view's `view_uploaded`, every uploaded
      object, and the upload attempts. */
  datatype Totals = Totals(perView: seq<nat>, uploaded: seq<UploadTarget>, attempts: nat)

  function AllTallies(ks: seq<seq<bool>>, report: Report, ok: nat -> bool, n: nat): (t: Totals)
    requires n <= |Views| <= |ks|
    ensures |t.perView| == n
  {
    if n == 0 then Totals([], [], 0)
    else
      var prev := AllTallies(ks, report, ok, n - 1);
      var v := ViewTally(ks[n - 1], report, Views[n - 1], ok, prev.attempts, |ks[n - 1]|);
      Totals(prev.perView + [|v.uploaded|], prev.uploaded + v.uploaded, prev.attempts + v.attempts)
  }

  /** `total_uploaded` is the sum of the per-view counts and equals the number
      of objects written; every kept slice of every view was attempted once. */
  lemma {:induction false} TotalIsSumOfViews(ks: seq<seq<bool>>, report: Report, ok: nat -> bool, n: nat)
    requires n <= |Views| <= |ks|
    ensures |AllTallies(ks, report, ok, n).uploaded| == SliceUploader.SumFirst(AllTallies(ks, report, ok, n).perView, n)
    ensures AllTallies(ks, report, ok, n).attempts == KeptUpTo(ks, n)
    ensures forall j | 0 <= j < n :: AllTallies(ks, report, ok, n).perView[j] <= CountValid(ks[j], |ks[j]|)
  {
    if n > 0 {
      var prev := AllTallies(ks, report, ok, n - 1);
      TotalIsSumOfViews(ks, report, ok, n - 1);
      ViewTallyCounts(ks[n - 1], report, Views[n - 1], ok, prev.attempts, |ks[n - 1]|);
      var t := AllTallies(ks, report, ok, n);
      assert t.perView[..n - 1] == prev.perView;
      SliceUploader.SumFirstPrefix(t.perView, prev.perView, n - 1);
    }
  }

  /** The kept slices of the first n views. */
  function KeptUpTo(ks: seq<seq<bool>>, n: nat): nat
    requires n <= |ks|
  {
    if n == 0 then 0 else KeptUpTo(ks, n - 1) + CountValid(ks[n - 1], |ks[n - 1]|)
  }

  lemma AllStep(ks: seq<seq<bool>>, report: Report, ok: nat -> bool, n: nat,
                uploaded: seq<UploadTarget>, attempts: nat)
    requires n < |Views| <= |ks|
    requires Tally(uploaded, attempts)
             == ViewTally(ks[n], report, Views[n], ok, AllTallies(ks, report, ok, n).attempts, |ks[n]|)
    ensures AllTallies(ks, report, ok, n + 1)
            == Totals(AllTallies(ks, report, ok, n).perView + [|uploaded|],
                      AllTallies(ks, report, ok, n).uploaded + uploaded,
                      AllTallies(ks, report, ok, n).attempts + attempts)
  {
  }

  /** The outer `for view in VIEWS` loop over the keep vectors of the three views. */
  method UploadViews(ks: seq<seq<bool>>, report: Report, ok: nat -> bool) returns (totals: Totals)
    requires |ks| == |Views|
    ensures totals == AllTallies(ks, report, ok, |Views|)
  {
    totals := Totals([], [], 0);
    var vi := 0;
    while vi < |Views|
      invariant 0 <= vi <= |Views|
      invariant totals == AllTallies(ks, report, ok, vi)
    {
      var uploaded, attempts := UploadKeptSlices(ks[vi], report, Views[vi], ok, totals.attempts);
      AllStep(ks, report, ok, vi, uploaded, attempts);
      totals := Totals(totals.perView + [|uploaded|], totals.uploaded + uploaded, totals.attempts + attempts);
      vi := vi + 1;
    }
  }

  // ---------------------------------------------------------------- the workflow

  /** How `process_and_upload` ended: an early return for a missing file or a
      load error, the `ValueError` that normalising an empty volume raises (it is
      outside the `try`), or the uploads made. */
  datatype Outcome = FileNotFound | LoadError(error: string) | NormalizeRaised | Done(totals: Totals)

  /** The report every object of this script is filed under. */
  function CbctReport(clinicId: string, patientId: string, reportId: string): Report {
    SliceUploader.Report(clinicId, patientId, reportId, "cbct")
  }

  /** `process_and_upload`: the file-system test and the loader are inputs, the
      storage's answers are `ok`. */
  method ProcessAndUpload(fileExists: bool, load: Result<Loaded>, clinicId: string, patientId: string,
                          reportId: string, ok: nat -> bool)
    returns (outcome: Outcome)
    requires load.Ok? ==> HasShape(load.value.volume, load.value.shape)
    ensures !fileExists ==> outcome == FileNotFound
    ensures fileExists && load.Err? ==> outcome == LoadError(load.message)
    ensures fileExists && load.Ok? && load.value.shape.Size() == 0 ==> outcome == NormalizeRaised
    ensures fileExists && load.Ok? && load.value.shape.Size() > 0 ==>
              outcome == Done(AllTallies(AllScriptKeeps(NormalizeVolume(load.value.volume, load.value.shape),
                                                        load.value.shape),
                                         CbctReport(clinicId, patientId, reportId), ok, |Views|))
  {
    if !fileExists {
      return FileNotFound;
    }
    if load.Err? {
      return LoadError(load.message);
    }
    var volume, s := load.value.volume, load.value.shape;
    if s.Size() == 0 {
      return NormalizeRaised;
    }
    var norm := NormalizeVolume(volume, s);
    var ks := AllScriptKeeps(norm, s);
    var totals := UploadViews(ks, CbctReport(clinicId, patientId, reportId), ok);
    outcome := Done(totals);
  }
}
