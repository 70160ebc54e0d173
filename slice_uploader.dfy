/** `SupabaseSliceUploader.upload_all_slices`: the storage variant of the slicer.
    Each valid slice is encoded and uploaded to
    `<clinic>/<patient>/<report_type>/<report>/<view>/<n>.jpg` in the `reports`
    bucket, n being the number of slices of that view uploaded so far; a failed
    upload is counted and the next valid slice retries the same n; a view stops
    after its fifth upload. The storage service is an oracle: the reply to the
    k-th upload attempt of the whole call (counting from 0) is `reply(k)`. */
module SliceUploader {
  import opened Text
  import opened Grids
  import opened Slicing

  /** The per-view limit of the debug mode (`if saved_count >= 5: break`). */
  const SliceCap: nat := 5

  /** The identifiers that make up a storage path. */
  datatype Report = Report(clinicId: string, patientId: string, reportId: string, reportType: string)

  /** One object written to the bucket. */
  datatype UploadTarget = UploadTarget(report: Report, view: View, index: nat) {
    /** `<clinic_id>/<patient_id>/<report_type>/<report_id>/<view>/<index>.jpg` */
    function Path(): string {
      report.clinicId + "/" + report.patientId + "/" + report.reportType + "/" + report.reportId
        + "/" + view.Name() + "/" + DecimalString(index) + ".jpg"
    }
  }

  /** What `upload_slice` gets back: the public URL, or an exception (which it
      turns into None). */
  datatype StorageReply = PublicUrl(url: string) | UploadError

  /** `if url:` — None and the empty string are falsy. */
  predicate Truthy(r: StorageReply) {
    r.PublicUrl? && r.url != ""
  }

  /** `(view, current, total)` passed to the progress callback. */
  datatype Progress = Progress(view: string, current: nat, total: nat)

  /** The state of one view's loop: `saved_count`, the URLs and the objects it
      stored, the upload attempts and failures so far, the progress calls, and
      whether it has hit the cap and left the loop. */
  datatype ViewRun = ViewRun(saved: nat, urls: seq<string>, stored: seq<UploadTarget>,
                             attempts: nat, failed: nat, calls: seq<Progress>, stopped: bool)

  // ---------------------------------------------------------------- one view

  /** One iteration of the inner loop, for slice i of a view with `total` slices.
      `base` is the number of upload attempts made before this view started. An
      invalid slice is skipped before the progress call; the fifth upload leaves
      the loop before it too. */
  function UploadStep(st: ViewRun, isValid: bool, report: Report, view: View,
                      reply: nat -> StorageReply, base: nat, hasCallback: bool, total: nat, i: nat): ViewRun
  {
    if st.stopped || !isValid then st
    else
      var r := reply(base + st.attempts);
      var call := ProgressCall(view, hasCallback, total, i);
      if Truthy(r) then
        var up := st.(saved := st.saved + 1, urls := st.urls + [r.url],
                      stored := st.stored + [UploadTarget(report, view, st.saved)], attempts := st.attempts + 1);
        if up.saved >= SliceCap then up.(stopped := true) else up.(calls := st.calls + call)
      else
        st.(attempts := st.attempts + 1, failed := st.failed + 1, calls := st.calls + call)
  }

  /** The progress call made for slice i, if any. */
  function ProgressCall(view: View, hasCallback: bool, total: nat, i: nat): seq<Progress> {
    if hasCallback && i % 20 == 0 then [Progress(view.Name(), i, total)] else []
  }

  /** The state of a view's loop after its first k slices; `valid` says which
      slices pass `is_valid_slice`. */
  function ViewUpload(valid: seq<bool>, report: Report, view: View, reply: nat -> StorageReply,
                      base: nat, hasCallback: bool, k: nat): ViewRun
    requires k <= |valid|
  {
    if k == 0 then ViewRun(0, [], [], 0, 0, [], false)
    else
      UploadStep(ViewUpload(valid, report, view, reply, base, hasCallback, k - 1),
                 valid[k - 1], report, view, reply, base, hasCallback, |valid|, k - 1)
  }

  /** What holds of a view's state after k slices: one URL and one stored object
      per successful upload, and no more than five; the loop has stopped exactly
      when five have been stored; the objects are `0.jpg`, `1.jpg`, ... in order;
      every upload is a success or a failure; no more uploads than valid slices;
      every URL is non-empty; and every progress call reports a valid slice whose
      raw index is a multiple of 20. */
  predicate Consistent(st: ViewRun, valid: seq<bool>, report: Report, view: View, k: nat)
    requires k <= |valid|
  {
    && |st.urls| == st.saved == |st.stored|
    && st.saved <= SliceCap
    && (st.stopped <==> st.saved == SliceCap)
    && (forall j | 0 <= j < |st.stored| :: st.stored[j] == UploadTarget(report, view, j))
    && st.attempts == st.saved + st.failed
    && st.attempts <= CountValid(valid, k)
    && (forall j | 0 <= j < |st.urls| :: st.urls[j] != "")
    && (forall c | c in st.calls ::
          c.view == view.Name() && c.total == |valid| && c.current < k && c.current % 20 == 0
          && valid[c.current])
  }

  lemma {:induction false} ViewUploadConsistent(valid: seq<bool>, report: Report, view: View,
                                                reply: nat -> StorageReply, base: nat, hasCallback: bool, k: nat)
    requires k <= |valid|
    ensures Consistent(ViewUpload(valid, report, view, reply, base, hasCallback, k), valid, report, view, k)
  {
    if k > 0 {
      ViewUploadConsistent(valid, report, view, reply, base, hasCallback, k - 1);
      StepConsistent(ViewUpload(valid, report, view, reply, base, hasCallback, k - 1),
                     valid, report, view, reply, base, hasCallback, k);
    }
  }

  /** One iteration keeps `Consistent`. */
  lemma StepConsistent(st: ViewRun, valid: seq<bool>, report: Report, view: View,
                       reply: nat -> StorageReply, base: nat, hasCallback: bool, k: nat)
    requires 0 < k <= |valid| && Consistent(st, valid, report, view, k - 1)
    ensures Consistent(UploadStep(st, valid[k - 1], report, view, reply, base, hasCallback, |valid|, k - 1),
                       valid, report, view, k)
  {
    var next := UploadStep(st, valid[k - 1], report, view, reply, base, hasCallback, |valid|, k - 1);
    forall c | c in next.calls
      ensures c.view == view.Name() && c.total == |valid| && c.current < k && c.current % 20 == 0
        && valid[c.current]
    {
      if c !in st.calls {
        assert c == Progress(view.Name(), k - 1, |valid|);
      }
    }
  }

  /** How many of the n storage answers from attempt `base` on carry no URL. */
  function FailedAmong(reply: nat -> StorageReply, base: nat, n: nat): nat {
    if n == 0 then 0 else FailedAmong(reply, base, n - 1) + (if Truthy(reply(base + n - 1)) then 0 else 1)
  }

  /** Every valid slice is attempted until the view stops, and the failures are
      exactly the attempts storage answered without a URL. */
  lemma {:induction false} ViewUploadAttempts(valid: seq<bool>, report: Report, view: View,
                                              reply: nat -> StorageReply, base: nat, hasCallback: bool, k: nat)
    requires k <= |valid|
    ensures var st := ViewUpload(valid, report, view, reply, base, hasCallback, k);
            && st.failed == FailedAmong(reply, base, st.attempts)
            && (!st.stopped ==> st.attempts == CountValid(valid, k))
  {
    if k > 0 {
      ViewUploadAttempts(valid, report, view, reply, base, hasCallback, k - 1);
    }
  }

  /** Once a view has stopped, later slices change nothing: the loop has been left. */
  lemma {:induction false} StoppedStable(valid: seq<bool>, report: Report, view: View,
                                         reply: nat -> StorageReply, base: nat, hasCallback: bool, k: nat, m: nat)
    requires k <= m <= |valid|
    requires ViewUpload(valid, report, view, reply, base, hasCallback, k).stopped
    ensures ViewUpload(valid, report, view, reply, base, hasCallback, m)
      == ViewUpload(valid, report, view, reply, base, hasCallback, k)
    decreases m - k
  {
    if m > k {
      StoppedStable(valid, report, view, reply, base, hasCallback, k, m - 1);
    }
  }

  function Min(a: nat, b: nat): nat { if a <= b then a else b }

  /** With a storage that always answers with a URL, a view uploads its first five
      valid slices (or all of them, if fewer) and nothing fails. */
  lemma {:induction false} ReliableStorage(valid: seq<bool>, report: Report, view: View,
                                           reply: nat -> StorageReply, base: nat, hasCallback: bool, k: nat)
    requires k <= |valid|
    requires forall a :: Truthy(reply(a))
    ensures ViewUpload(valid, report, view, reply, base, hasCallback, k).saved == Min(CountValid(valid, k), SliceCap)
    ensures ViewUpload(valid, report, view, reply, base, hasCallback, k).failed == 0
  {
    if k > 0 {
      ReliableStorage(valid, report, view, reply, base, hasCallback, k - 1);
      ViewUploadConsistent(valid, report, view, reply, base, hasCallback, k - 1);
      assert Truthy(reply(base + ViewUpload(valid, report, view, reply, base, hasCallback, k - 1).attempts));
    }
  }

  /** With a storage that always fails, a view stores nothing and counts one failure
      per valid slice. */
  lemma {:induction false} FailingStorage(valid: seq<bool>, report: Report, view: View,
                                          reply: nat -> StorageReply, base: nat, hasCallback: bool, k: nat)
    requires k <= |valid|
    requires forall a :: !Truthy(reply(a))
    ensures ViewUpload(valid, report, view, reply, base, hasCallback, k).urls == []
    ensures ViewUpload(valid, report, view, reply, base, hasCallback, k).failed == CountValid(valid, k)
  {
    if k > 0 {
      FailingStorage(valid, report, view, reply, base, hasCallback, k - 1);
      ViewUploadConsistent(valid, report, view, reply, base, hasCallback, k - 1);
      assert !Truthy(reply(base + ViewUpload(valid, report, view, reply, base, hasCallback, k - 1).attempts));
    }
  }

  /** Two different stored objects of one view never share a path. */
  lemma StoredPathsDistinct(report: Report, view: View, m: nat, n: nat)
    requires UploadTarget(report, view, m).Path() == UploadTarget(report, view, n).Path()
    ensures m == n
  {
    var pre := report.clinicId + "/" + report.patientId + "/" + report.reportType + "/" + report.reportId
      + "/" + view.Name() + "/";
    var pm, pn := pre + DecimalString(m) + ".jpg", pre + DecimalString(n) + ".jpg";
    assert pm == UploadTarget(report, view, m).Path();
    assert pn == UploadTarget(report, view, n).Path();
    assert |DecimalString(m)| == |DecimalString(n)|;
    assert DecimalString(m) == pm[|pre|..|pm| - 4];
    assert DecimalString(n) == pn[|pre|..|pn| - 4];
    DecimalStringInjective(m, n);
  }

  /** An invalid slice changes nothing. */
  lemma StepInvalid(valid: seq<bool>, report: Report, view: View, reply: nat -> StorageReply,
                    base: nat, hasCallback: bool, i: nat, st: ViewRun)
    requires i < |valid| && !valid[i]
    requires ViewUpload(valid, report, view, reply, base, hasCallback, i) == st
    ensures ViewUpload(valid, report, view, reply, base, hasCallback, i + 1) == st
  {
  }

  /** A successful upload adds its URL and its object; the fifth stops the view,
      any earlier one goes on to the progress call. */
  lemma StepStored(valid: seq<bool>, report: Report, view: View, reply: nat -> StorageReply,
                   base: nat, hasCallback: bool, i: nat, st: ViewRun)
    requires i < |valid| && valid[i] && !st.stopped
    requires ViewUpload(valid, report, view, reply, base, hasCallback, i) == st
    requires Truthy(reply(base + st.attempts))
    ensures ViewUpload(valid, report, view, reply, base, hasCallback, i + 1)
      == var up := st.(saved := st.saved + 1, urls := st.urls + [reply(base + st.attempts).url],
                       stored := st.stored + [UploadTarget(report, view, st.saved)], attempts := st.attempts + 1);
         if up.saved >= SliceCap then up.(stopped := true)
         else up.(calls := st.calls + ProgressCall(view, hasCallback, |valid|, i))
  {
  }

  /** A failed upload is counted and goes on to the progress call. */
  lemma StepFailed(valid: seq<bool>, report: Report, view: View, reply: nat -> StorageReply,
                   base: nat, hasCallback: bool, i: nat, st: ViewRun)
    requires i < |valid| && valid[i] && !st.stopped
    requires ViewUpload(valid, report, view, reply, base, hasCallback, i) == st
    requires !Truthy(reply(base + st.attempts))
    ensures ViewUpload(valid, report, view, reply, base, hasCallback, i + 1)
      == st.(attempts := st.attempts + 1, failed := st.failed + 1,
             calls := st.calls + ProgressCall(view, hasCallback, |valid|, i))
  {
  }

  /** The inner loop of `upload_all_slices` for one view. `valid[i]` is
      `is_valid_slice(extract_slice(volume_normalized, axis, i))`; the JPEG bytes of
      the slice are not modelled, so the loop needs nothing else of the slice. */
  method UploadView(valid: seq<bool>, view: View, report: Report, reply: nat -> StorageReply,
                    base: nat, hasCallback: bool)
    returns (run: ViewRun)
    ensures run == ViewUpload(valid, report, view, reply, base, hasCallback, |valid|)
  {
    var sliceCount := |valid|;
    var savedCount, urls, stored, attempts, failed, calls := 0, [], [], 0, 0, [];
    var i := 0;
    while i < sliceCount
      invariant 0 <= i <= sliceCount
      invariant ViewUpload(valid, report, view, reply, base, hasCallback, i)
        == ViewRun(savedCount, urls, stored, attempts, failed, calls, false)
    {
      ghost var st := ViewRun(savedCount, urls, stored, attempts, failed, calls, false);
      if !valid[i] {
        StepInvalid(valid, report, view, reply, base, hasCallback, i, st);
        i := i + 1;
        continue;
      }
      var r := reply(base + attempts);
      attempts := attempts + 1;
      if Truthy(r) {
        StepStored(valid, report, view, reply, base, hasCallback, i, st);
        urls := urls + [r.url];
        stored := stored + [UploadTarget(report, view, savedCount)];
        savedCount := savedCount + 1;
        if savedCount >= SliceCap {
          StoppedStable(valid, report, view, reply, base, hasCallback, i + 1, sliceCount);
          return ViewRun(savedCount, urls, stored, attempts, failed, calls, true);
        }
      } else {
        StepFailed(valid, report, view, reply, base, hasCallback, i, st);
        failed := failed + 1;
      }
      if hasCallback && i % 20 == 0 {
        calls := calls + [Progress(view.Name(), i, sliceCount)];
      }
      i := i + 1;
    }
    run := ViewRun(savedCount, urls, stored, attempts, failed, calls, false);
  }

  // ---------------------------------------------------------------- all views

  /** The accumulated state after the first n views: each view's `saved_count` in
      traversal order, all URLs, all stored objects, the upload attempts, the
      failures and the progress calls. */
  datatype Summary = Summary(counts: seq<nat>, urls: seq<string>, stored: seq<UploadTarget>,
                             attempts: nat, failed: nat, calls: seq<Progress>)

  /** The run of view n, which starts after `base` attempts. */
  function RunOf(vs: seq<seq<bool>>, report: Report, reply: nat -> StorageReply, hasCallback: bool,
                 n: nat, base: nat): ViewRun
    requires n < |Views| <= |vs|
  {
    ViewUpload(vs[n], report, Views[n], reply, base, hasCallback, |vs[n]|)
  }

  function AllUpload(vs: seq<seq<bool>>, report: Report, reply: nat -> StorageReply, hasCallback: bool,
                     n: nat): (sum: Summary)
    requires n <= |Views| <= |vs|
    ensures |sum.counts| == n
  {
    if n == 0 then Summary([], [], [], 0, 0, [])
    else
      var prev := AllUpload(vs, report, reply, hasCallback, n - 1);
      var run := RunOf(vs, report, reply, hasCallback, n - 1, prev.attempts);
      Summary(prev.counts + [run.saved], prev.urls + run.urls, prev.stored + run.stored,
              prev.attempts + run.attempts, prev.failed + run.failed, prev.calls + run.calls)
  }

  /** The objects `0.jpg` .. `(c-1).jpg` of one view. */
  function Targets(report: Report, view: View, c: nat): (t: seq<UploadTarget>)
    ensures |t| == c
  {
    seq(c, j requires 0 <= j < c => UploadTarget(report, view, j))
  }

  /** The objects the first n views store, given their counts. */
  function StoredUpTo(report: Report, counts: seq<nat>, n: nat): seq<UploadTarget>
    requires n <= |Views| && n <= |counts|
  {
    if n == 0 then [] else StoredUpTo(report, counts, n - 1) + Targets(report, Views[n - 1], counts[n - 1])
  }

  function SumFirst(counts: seq<nat>, n: nat): nat
    requires n <= |counts|
  {
    if n == 0 then 0 else SumFirst(counts, n - 1) + counts[n - 1]
  }

  /** What view n - 1 adds to the summary of the views before it. */
  lemma AllUploadStep(vs: seq<seq<bool>>, report: Report, reply: nat -> StorageReply, hasCallback: bool, n: nat)
    requires 0 < n <= |Views| <= |vs|
    ensures var prev, sum := AllUpload(vs, report, reply, hasCallback, n - 1), AllUpload(vs, report, reply, hasCallback, n);
            var run := RunOf(vs, report, reply, hasCallback, n - 1, prev.attempts);
            && Consistent(run, vs[n - 1], report, Views[n - 1], |vs[n - 1]|)
            && sum.counts == prev.counts + [run.saved] && sum.urls == prev.urls + run.urls
            && sum.stored == prev.stored + run.stored
            && sum.attempts == prev.attempts + run.attempts && sum.failed == prev.failed + run.failed
  {
    var prev := AllUpload(vs, report, reply, hasCallback, n - 1);
    ViewUploadConsistent(vs[n - 1], report, Views[n - 1], reply, prev.attempts, hasCallback, |vs[n - 1]|);
  }

  /** Across the first n views: no count above five, every URL non-empty, and
      every attempt has either stored an object or been counted as failed. */
  lemma {:induction false} AllUploadTally(vs: seq<seq<bool>>, report: Report, reply: nat -> StorageReply,
                                          hasCallback: bool, n: nat)
    requires n <= |Views| <= |vs|
    ensures var sum := AllUpload(vs, report, reply, hasCallback, n);
      && (forall v | 0 <= v < n :: sum.counts[v] <= SliceCap)
      && (forall j | 0 <= j < |sum.urls| :: sum.urls[j] != "")
      && sum.attempts == |sum.urls| + sum.failed
  {
    if n > 0 {
      AllUploadTally(vs, report, reply, hasCallback, n - 1);
      AllUploadStep(vs, report, reply, hasCallback, n);
      var prev := AllUpload(vs, report, reply, hasCallback, n - 1);
      var run := RunOf(vs, report, reply, hasCallback, n - 1, prev.attempts);
      var sum := AllUpload(vs, report, reply, hasCallback, n);
      forall v | 0 <= v < n ensures sum.counts[v] <= SliceCap {
        if v < n - 1 {
          assert sum.counts[v] == prev.counts[v];
        }
      }
      forall j | 0 <= j < |sum.urls| ensures sum.urls[j] != "" {
        if j >= |prev.urls| {
          assert sum.urls[j] == run.urls[j - |prev.urls|];
        } else {
          assert sum.urls[j] == prev.urls[j];
        }
      }
    }
  }

  /** Across the first n views: one URL per stored object, and the objects are
      `0.jpg` .. of each view in turn. */
  lemma {:induction false} AllUploadStored(vs: seq<seq<bool>>, report: Report, reply: nat -> StorageReply,
                                           hasCallback: bool, n: nat)
    requires n <= |Views| <= |vs|
    ensures var sum := AllUpload(vs, report, reply, hasCallback, n);
      && |sum.urls| == SumFirst(sum.counts, n)
      && sum.stored == StoredUpTo(report, sum.counts, n)
  {
    if n > 0 {
      AllUploadStored(vs, report, reply, hasCallback, n - 1);
      AllUploadStep(vs, report, reply, hasCallback, n);
      var prev := AllUpload(vs, report, reply, hasCallback, n - 1);
      var run := RunOf(vs, report, reply, hasCallback, n - 1, prev.attempts);
      var sum := AllUpload(vs, report, reply, hasCallback, n);
      assert run.stored == Targets(report, Views[n - 1], run.saved);
      assert sum.counts[..n - 1] == prev.counts;
      StoredUpToPrefix(report, sum.counts, prev.counts, n - 1);
      SumFirstPrefix(sum.counts, prev.counts, n - 1);
    }
  }

  /** Across the first n views: one count per view, none above five; one URL per
      stored object, all non-empty; the objects are `0.jpg` .. of each view in turn;
      and every attempt has either stored an object or been counted as failed. */
  lemma AllUploadFacts(vs: seq<seq<bool>>, report: Report, reply: nat -> StorageReply, hasCallback: bool, n: nat)
    requires n <= |Views| <= |vs|
    ensures var sum := AllUpload(vs, report, reply, hasCallback, n);
      && (forall v | 0 <= v < n :: sum.counts[v] <= SliceCap)
      && |sum.urls| == SumFirst(sum.counts, n)
      && (forall j | 0 <= j < |sum.urls| :: sum.urls[j] != "")
      && sum.stored == StoredUpTo(report, sum.counts, n)
      && sum.attempts == |sum.urls| + sum.failed
  {
    AllUploadTally(vs, report, reply, hasCallback, n);
    AllUploadStored(vs, report, reply, hasCallback, n);
  }

  lemma {:induction false} StoredUpToPrefix(report: Report, a: seq<nat>, b: seq<nat>, n: nat)
    requires n <= |Views| && n <= |a| && n <= |b| && a[..n] == b[..n]
    ensures StoredUpTo(report, a, n) == StoredUpTo(report, b, n)
  {
    if n > 0 {
      assert a[..n - 1] == a[..n][..n - 1];
      assert b[..n - 1] == b[..n][..n - 1];
      assert a[n - 1] == a[..n][n - 1];
      assert b[n - 1] == b[..n][n - 1];
      StoredUpToPrefix(report, a, b, n - 1);
    }
  }

  lemma {:induction false} SumFirstPrefix(a: seq<nat>, b: seq<nat>, n: nat)
    requires n <= |a| && n <= |b| && a[..n] == b[..n]
    ensures SumFirst(a, n) == SumFirst(b, n)
  {
    if n > 0 {
      assert a[..n - 1] == a[..n][..n - 1];
      assert b[..n - 1] == b[..n][..n - 1];
      assert a[n - 1] == a[..n][n - 1];
      assert b[n - 1] == b[..n][n - 1];
      SumFirstPrefix(a, b, n - 1);
    }
  }

  /** The dictionary `upload_all_slices` returns. */
  datatype UploadResult = UploadResult(sliceCounts: map<string, nat>, uploadedUrls: seq<string>,
                                       totalSlices: nat, failedCount: nat)

  function ResultOf(sum: Summary): UploadResult
    requires |sum.counts| == |Views|
  {
    var counts := CountsMap(sum.counts, 3);
    UploadResult(counts, sum.urls, TotalOf(counts), sum.failed)
  }

  /** The returned summary: `slice_counts` has the three views as keys, with at
      most five slices each; `total_slices` is the number of URLs returned, so at
      most fifteen; every attempt either returned a URL or was counted in
      `failed_count`; and the bucket holds exactly `0.jpg` .. of each view, one per
      URL. */
  lemma UploadResultFacts(vs: seq<seq<bool>>, report: Report, reply: nat -> StorageReply, hasCallback: bool)
    requires |vs| == |Views|
    ensures var sum := AllUpload(vs, report, reply, hasCallback, 3);
      var result := ResultOf(sum);
      && result.sliceCounts.Keys == {"axial", "coronal", "sagittal"}
      && (forall v | v in Views :: result.sliceCounts[v.Name()] <= SliceCap)
      && result.totalSlices == |result.uploadedUrls| <= 3 * SliceCap
      && sum.attempts == result.totalSlices + result.failedCount
      && sum.stored == Targets(report, Axial, result.sliceCounts["axial"])
                       + Targets(report, Coronal, result.sliceCounts["coronal"])
                       + Targets(report, Sagittal, result.sliceCounts["sagittal"])
  {
    AllUploadFacts(vs, report, reply, hasCallback, 3);
    var sum := AllUpload(vs, report, reply, hasCallback, 3);
    CountsMapFull(sum.counts);
    assert Views[0] == Axial && Views[1] == Coronal && Views[2] == Sagittal;
    assert SumFirst(sum.counts, 1) == sum.counts[0];
    assert SumFirst(sum.counts, 2) == sum.counts[0] + sum.counts[1];
    assert sum.counts[0] <= SliceCap && sum.counts[1] <= SliceCap && sum.counts[2] <= SliceCap;
    assert StoredUpTo(report, sum.counts, 1) == Targets(report, Axial, sum.counts[0]);
  }

  /** What one more view adds to the accumulated state. */
  lemma AllStep(vs: seq<seq<bool>>, report: Report, reply: nat -> StorageReply, hasCallback: bool, n: nat,
                counts: seq<nat>, urls: seq<string>, stored: seq<UploadTarget>, attempts: nat, failed: nat,
                calls: seq<Progress>, run: ViewRun)
    requires n < |Views| <= |vs|
    requires AllUpload(vs, report, reply, hasCallback, n) == Summary(counts, urls, stored, attempts, failed, calls)
    requires run == RunOf(vs, report, reply, hasCallback, n, attempts)
    ensures AllUpload(vs, report, reply, hasCallback, n + 1)
      == Summary(counts + [run.saved], urls + run.urls, stored + run.stored, attempts + run.attempts,
                 failed + run.failed, calls + run.calls)
  {
  }

  /** The outer loop of `upload_all_slices`; `vs[n]` says which slices of view n
      are valid. `attempts` is how many uploads have been tried so far. */
  method UploadViews(vs: seq<seq<bool>>, report: Report, reply: nat -> StorageReply, hasCallback: bool)
    returns (result: UploadResult, stored: seq<UploadTarget>, progress: seq<Progress>)
    requires |vs| == |Views|
    ensures result == ResultOf(AllUpload(vs, report, reply, hasCallback, 3))
    ensures stored == AllUpload(vs, report, reply, hasCallback, 3).stored
    ensures progress == AllProgressOf(vs, report, reply, hasCallback)
  {
    ghost var counts: seq<nat> := [];
    var sliceCounts: map<string, nat> := map[];
    var urls: seq<string> := [];
    var failedCount: nat, attempts: nat := 0, 0;
    stored, progress := [], [];
    var vi := 0;
    while vi < |Views|
      invariant 0 <= vi <= |Views|
      invariant AllUpload(vs, report, reply, hasCallback, vi)
        == Summary(counts, urls, stored, attempts, failedCount, progress)
      invariant sliceCounts == CountsMap(counts, vi)
    {
      var view := Views[vi];
      var run := UploadView(vs[vi], view, report, reply, attempts, hasCallback);
      AllStep(vs, report, reply, hasCallback, vi, counts, urls, stored, attempts, failedCount, progress, run);
      assert CountsMap(counts + [run.saved], vi + 1) == CountsMap(counts, vi)[view.Name() := run.saved] by {
        CountsMapPrefix(counts + [run.saved], counts, vi);
      }
      sliceCounts := sliceCounts[view.Name() := run.saved];
      counts := counts + [run.saved];
      urls := urls + run.urls;
      stored := stored + run.stored;
      attempts := attempts + run.attempts;
      failedCount := failedCount + run.failed;
      progress := progress + run.calls;
      vi := vi + 1;
    }
    result := UploadResult(sliceCounts, urls, TotalOf(sliceCounts), failedCount);
  }

  /** The progress calls of the whole upload. */
  function AllProgressOf(vs: seq<seq<bool>>, report: Report, reply: nat -> StorageReply, hasCallback: bool)
    : seq<Progress>
    requires |Views| <= |vs|
  {
    AllUpload(vs, report, reply, hasCallback, 3).calls
  }

  /** `upload_all_slices`: normalises the volume once and uploads the three views in
      order. Returns the summary dictionary, the objects written to the bucket and the
      progress calls made. */
  method UploadAllSlices(volume: Volume, s: Shape, report: Report, reply: nat -> StorageReply, hasCallback: bool)
    returns (result: UploadResult, stored: seq<UploadTarget>, progress: seq<Progress>)
    requires HasShape(volume, s) && s.Size() > 0
    ensures result == ResultOf(AllUpload(Validities(NormalizeVolume(volume, s), s), report, reply, hasCallback, 3))
    ensures stored == AllUpload(Validities(NormalizeVolume(volume, s), s), report, reply, hasCallback, 3).stored
    ensures progress == AllProgressOf(Validities(NormalizeVolume(volume, s), s), report, reply, hasCallback)
  {
    var norm := NormalizeVolume(volume, s);
    var vs := Validities(norm, s);
    result, stored, progress := UploadViews(vs, report, reply, hasCallback);
  }
}
