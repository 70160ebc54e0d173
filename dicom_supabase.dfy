/** `process_dicom_to_supabase`: the same first five steps as `process_dicom`,
    after which the three views go to the storage bucket instead of the disk. */
module DicomSupabase {
  import opened Wrappers
  import opened Grids
  import opened Slicing
  import opened SliceUploader
  import opened DicomLoader
  import opened DicomVolume
  import opened DicomPipeline

  /** The dictionary `process_dicom_to_supabase` returns. */
  datatype DicomUploadResult = DicomUploadResult(status: string, message: string,
                                                 sliceCounts: map<string, nat>, uploadedUrls: seq<string>,
                                                 voxelSizes: Spacing, dataShape: Shape, totalSlices: nat,
                                                 dicomFilesProcessed: nat, failedFiles: nat, failedUploads: nat)

  /** What `upload_all_slices` returns for the assembled volume. */
  function Uploaded(a: Assembled, report: Report, reply: nat -> StorageReply, hasCallback: bool): UploadResult
    requires HasShape(a.loaded.volume, a.loaded.shape) && a.loaded.shape.Size() > 0
  {
    var l := a.loaded;
    ResultOf(AllUpload(Validities(NormalizeVolume(l.volume, l.shape), l.shape), report, reply, hasCallback, 3))
  }

  /** `process_dicom_to_supabase`; `reply` answers the storage calls in order. */
  function ProcessDicomToSupabase(files: seq<WalkedFile>, read: string -> DcmRead, report: Report,
                                  reply: nat -> StorageReply, hasCallback: bool)
    : (r: Result<DicomUploadResult>)
    ensures r.Err? <==> Assemble(files, read).Err?
  {
    var a := Assemble(files, read);
    if a.Err? then Err(a.message)
    else
      AssembledNonEmpty(files, read);
      Ok(Record(a.value, Uploaded(a.value, report, reply, hasCallback)))
  }

  /** The success record of an assembled volume and its upload summary. */
  function Record(a: Assembled, up: UploadResult): DicomUploadResult {
    DicomUploadResult("success", "DICOM files processed and uploaded to Supabase successfully",
                      up.sliceCounts, up.uploadedUrls, a.spacing, a.loaded.shape,
                      up.totalSlices, |a.sorted|, |a.failed|, up.failedCount)
  }

  /** How many uploads were tried. */
  function UploadAttempts(files: seq<WalkedFile>, read: string -> DcmRead, report: Report,
                          reply: nat -> StorageReply, hasCallback: bool): nat
    requires Assemble(files, read).Ok?
  {
    AssembledNonEmpty(files, read);
    AttemptsOf(Assemble(files, read).value, report, reply, hasCallback)
  }

  function AttemptsOf(a: Assembled, report: Report, reply: nat -> StorageReply, hasCallback: bool): nat
    requires HasShape(a.loaded.volume, a.loaded.shape) && a.loaded.shape.Size() > 0
  {
    var l := a.loaded;
    AllUpload(Validities(NormalizeVolume(l.volume, l.shape), l.shape), report, reply, hasCallback, 3).attempts
  }

  /** The upload summary of an assembled volume. */
  lemma UploadedFacts(a: Assembled, report: Report, reply: nat -> StorageReply, hasCallback: bool)
    requires HasShape(a.loaded.volume, a.loaded.shape) && a.loaded.shape.Size() > 0
    ensures var up := Uploaded(a, report, reply, hasCallback);
            && up.sliceCounts.Keys == {"axial", "coronal", "sagittal"}
            && (forall v | v in Views :: up.sliceCounts[v.Name()] <= SliceCap)
            && up.totalSlices == |up.uploadedUrls| <= 3 * SliceCap
            && AttemptsOf(a, report, reply, hasCallback) == up.totalSlices + up.failedCount
  {
    var l := a.loaded;
    UploadResultFacts(Validities(NormalizeVolume(l.volume, l.shape), l.shape), report, reply, hasCallback);
  }

  /** The two pipelines fail on the same directories with the same error, and
      when they succeed they agree on the spacing, the shape and the slice
      and file counts. */
  lemma SameAsLocal(files: seq<WalkedFile>, read: string -> DcmRead, outputDir: string, report: Report,
                    reply: nat -> StorageReply, hasCallback: bool)
    ensures var up := ProcessDicomToSupabase(files, read, report, reply, hasCallback);
            var local := ProcessDicom(files, read, outputDir);
            && (up.Err? <==> local.Err?)
            && (up.Err? ==> up.message == local.message)
            && (up.Ok? ==>
                  && up.value.voxelSizes == local.value.voxelSizes
                  && up.value.dataShape == local.value.dataShape
                  && up.value.dicomFilesProcessed == local.value.dicomFilesProcessed
                  && up.value.failedFiles == local.value.failedFiles)
  {
  }

  /** The success record: the three views are the keys of `slice_counts`, at
      most five slices each; `total_slices` is the number of URLs, at most
      fifteen; every upload tried returned a URL or was counted in
      `failed_uploads`; the processed and failed DICOM files add up to the
      candidates. */
  lemma UploadRecord(files: seq<WalkedFile>, read: string -> DcmRead, report: Report,
                     reply: nat -> StorageReply, hasCallback: bool)
    requires ProcessDicomToSupabase(files, read, report, reply, hasCallback).Ok?
    ensures var r := ProcessDicomToSupabase(files, read, report, reply, hasCallback).value;
            && r.status == "success"
            && r.sliceCounts.Keys == {"axial", "coronal", "sagittal"}
            && (forall v | v in Views :: r.sliceCounts[v.Name()] <= SliceCap)
            && r.totalSlices == |r.uploadedUrls| <= 3 * SliceCap
            && UploadAttempts(files, read, report, reply, hasCallback) == r.totalSlices + r.failedUploads
            && r.dicomFilesProcessed + r.failedFiles == |Candidates(files)|
  {
    AssembledNonEmpty(files, read);
    var a := Assemble(files, read).value;
    assert ProcessDicomToSupabase(files, read, report, reply, hasCallback).value
           == Record(a, Uploaded(a, report, reply, hasCallback));
    UploadedFacts(a, report, reply, hasCallback);
  }
}
