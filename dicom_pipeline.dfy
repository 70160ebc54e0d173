/** `process_dicom`: find, load, sort and stack the DICOM files of a directory,
    read the spacing from the first slice, and write the three views. The
    directory listing and the DICOM parser are inputs, as for `DicomLoader`. */
module DicomPipeline {
  import opened Wrappers
  import opened Grids
  import opened Slicing
  import opened SliceGenerator
  import opened Builtins
  import opened DicomLoader
  import opened DicomVolume

  const NoFilesError := "No DICOM files found in directory"
  const NoSlicesError := "No valid DICOM slices could be loaded"

  /** What the first five steps produce: the sorted slices, the rejected
      files, the volume and the spacing. */
  datatype Assembled = Assembled(sorted: seq<Slice>, failed: seq<Failure>, loaded: Loaded, spacing: Spacing)

  /** The candidate files, in walk order. */
  function Candidates(files: seq<WalkedFile>): seq<string> {
    Found(files, Acceptance(files), |files|)
  }

  /** `load_and_validate` on the candidates. */
  function Loading(files: seq<WalkedFile>, read: string -> DcmRead): Partitioned {
    Partition(Candidates(files), Verdicts(Candidates(files), read), |Candidates(files)|)
  }

  /** Steps 1 to 5, shared with `process_dicom_to_supabase`: no candidate
      file, or no loadable slice, raises `ValueError`; `create_volume`'s own
      errors propagate. The spacing is read from the first slice after
      sorting. */
  function Assemble(files: seq<WalkedFile>, read: string -> DcmRead): (r: Result<Assembled>)
    ensures r.Ok? ==> HasShape(r.value.loaded.volume, r.value.loaded.shape)
    ensures r.Ok? ==> |r.value.sorted| > 0 && r.value.spacing == ExtractMetadata(r.value.sorted[0].ds)
    ensures r.Ok? ==> |r.value.sorted| + |r.value.failed| == |Candidates(files)|
    ensures r.Ok? ==> r.value.loaded.shape.n2 <= |r.value.sorted|
  {
    var dicomFiles := Candidates(files);
    if |dicomFiles| == 0 then Err(NoFilesError)
    else
      PartitionCount(dicomFiles, read);
      var p := Loading(files, read);
      if |p.valid| == 0 then Err(NoSlicesError)
      else
        var sorted := SortSlices(p.valid);
        SurvivorsAtMost(Conversions(sorted), |sorted|);
        var volume := StackAll(Survivors(Conversions(sorted), |sorted|));
        if volume.Err? then Err(volume.message)
        else Ok(Assembled(sorted, p.failed, volume.value, ExtractMetadata(sorted[0].ds)))
  }

  /** Every loaded slice has a pixel, so every sorted one does. */
  lemma SortedHaveCells(files: seq<WalkedFile>, read: string -> DcmRead)
    ensures forall a | 0 <= a < |SortSlices(Loading(files, read).valid)| ::
              |FlattenGrid(SortSlices(Loading(files, read).valid)[a].pixels)| > 0
  {
    var paths := Candidates(files);
    var vs := Verdicts(paths, read);
    var valid := Loading(files, read).valid;
    PartitionOrigins(paths, vs, |paths|);
    assert forall j | 0 <= j < |valid| :: |FlattenGrid(valid[j].pixels)| > 0;
    var order := StableOrder(SortKeys(valid), |valid|);
    var sorted := SortSlices(valid);
    forall a | 0 <= a < |sorted|
      ensures |FlattenGrid(sorted[a].pixels)| > 0
    {
      assert order[a] in order;
      assert sorted[a] == valid[order[a]];
    }
  }

  /** The assembled volume never has a zero dimension: every loaded slice has
      a pixel and rescaling keeps it. */
  lemma AssembledNonEmpty(files: seq<WalkedFile>, read: string -> DcmRead)
    requires Assemble(files, read).Ok?
    ensures Assemble(files, read).value.loaded.shape.Size() > 0
  {
    var sorted := SortSlices(Loading(files, read).valid);
    SortedHaveCells(files, read);
    var conv := Conversions(sorted);
    var list := Survivors(conv, |sorted|);
    SurvivorsOrigins(conv, |sorted|);
    var pos := Positions(Kept(conv), true, |sorted|);
    assert conv[pos[0]] == Some(list[0]);
    ConvertKeepsCells(sorted[pos[0]]);
    StackNonEmpty(list);
  }

  /** The dictionary `process_dicom` returns. */
  datatype DicomResult = DicomResult(status: string, message: string, sliceCounts: map<string, nat>,
                                     voxelSizes: Spacing, dataShape: Shape, totalSlices: nat,
                                     dicomFilesProcessed: nat, failedFiles: nat)

  /** `process_dicom`: the views are generated from the assembled volume. */
  function ProcessDicom(files: seq<WalkedFile>, read: string -> DcmRead, outputDir: string)
    : (r: Result<DicomResult>)
    ensures r.Err? <==> Assemble(files, read).Err?
    ensures r.Err? ==> r.message == Assemble(files, read).message
  {
    var a := Assemble(files, read);
    if a.Err? then Err(a.message)
    else
      AssembledNonEmpty(files, read);
      Ok(Generated(a.value, outputDir))
  }

  /** The success record for an assembled volume. */
  function Generated(a: Assembled, outputDir: string): DicomResult
    requires HasShape(a.loaded.volume, a.loaded.shape) && a.loaded.shape.Size() > 0
  {
    var volume, s := a.loaded.volume, a.loaded.shape;
    var counts := CountsMap(Sizes(Validities(NormalizeVolume(volume, s), s), outputDir), 3);
    DicomResult("success", "DICOM files processed successfully", counts, a.spacing, s,
                TotalOf(counts), |a.sorted|, |a.failed|)
  }

  /** The files `generate_all_slices` writes on the way. */
  function Written(files: seq<WalkedFile>, read: string -> DcmRead, outputDir: string): seq<SliceFile>
    requires Assemble(files, read).Ok?
  {
    AssembledNonEmpty(files, read);
    var l := Assemble(files, read).value.loaded;
    AllSaves(Validities(NormalizeVolume(l.volume, l.shape), l.shape), outputDir, 3)
  }

  /** The error conditions: no candidate file is "No DICOM files found in
      directory", and candidates none of which loads is "No valid DICOM slices
      could be loaded"; no other failure has either message. */
  lemma ProcessDicomErrors(files: seq<WalkedFile>, read: string -> DcmRead, outputDir: string)
    ensures ProcessDicom(files, read, outputDir) == Err(NoFilesError) <==> |Candidates(files)| == 0
    ensures ProcessDicom(files, read, outputDir) == Err(NoSlicesError)
            <==> |Candidates(files)| > 0 && |Loading(files, read).valid| == 0
  {
    assert NoFilesError != NoSlicesError;
    assert NoFilesError != NoPixelData && NoFilesError != ShapeMismatch;
    assert NoSlicesError != NoPixelData && NoSlicesError != ShapeMismatch;
  }

  /** What `generate_all_slices` reports for a non-empty volume: the three
      views are the keys, and their counts sum to the number of files written. */
  lemma GeneratedCounts(l: Loaded, outputDir: string)
    requires HasShape(l.volume, l.shape) && l.shape.Size() > 0
    ensures var vs := Validities(NormalizeVolume(l.volume, l.shape), l.shape);
            var counts := CountsMap(Sizes(vs, outputDir), 3);
            && counts.Keys == {"axial", "coronal", "sagittal"}
            && TotalOf(counts) == counts["axial"] + counts["coronal"] + counts["sagittal"]
            && TotalOf(counts) == |AllSaves(vs, outputDir, 3)|
  {
    var vs := Validities(NormalizeVolume(l.volume, l.shape), l.shape);
    TotalIsFilesWritten(vs, outputDir);
    CountsMapFull(Sizes(vs, outputDir));
  }

  /** The success record: `total_slices` is the number of files written and
      the sum of the three per-view counts; the processed and failed counts
      add up to the candidate files; the volume is no deeper than the number
      of slices stacked, and no dimension is zero; the spacing is the first
      sorted slice's. */
  lemma ProcessDicomResult(files: seq<WalkedFile>, read: string -> DcmRead, outputDir: string)
    requires ProcessDicom(files, read, outputDir).Ok?
    ensures var r := ProcessDicom(files, read, outputDir).value;
            var sorted := SortSlices(Loading(files, read).valid);
            && r.status == "success"
            && r.sliceCounts.Keys == {"axial", "coronal", "sagittal"}
            && r.totalSlices == r.sliceCounts["axial"] + r.sliceCounts["coronal"] + r.sliceCounts["sagittal"]
            && r.totalSlices == |Written(files, read, outputDir)|
            && r.dicomFilesProcessed == |sorted| > 0
            && r.dicomFilesProcessed + r.failedFiles == |Candidates(files)|
            && 0 < r.dataShape.n2 <= r.dicomFilesProcessed
            && r.dataShape.Size() > 0
            && r.voxelSizes == ExtractMetadata(sorted[0].ds)
  {
    var a := Assemble(files, read).value;
    AssembledNonEmpty(files, read);
    a.loaded.shape.SizePositive();
    assert ProcessDicom(files, read, outputDir).value == Generated(a, outputDir);
    GeneratedCounts(a.loaded, outputDir);
  }
}
