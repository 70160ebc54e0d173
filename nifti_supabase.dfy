/** `process_nifti_to_supabase`: the checks of `process_nifti`, after which the
    three views go to the storage bucket instead of the disk. */
module NiftiSupabase {
  import opened Wrappers
  import opened Grids
  import opened Slicing
  import opened SliceUploader
  import opened NiftiPipeline

  /** The dictionary `process_nifti_to_supabase` returns. */
  datatype NiftiUploadResult = NiftiUploadResult(status: string, message: string,
                                                 sliceCounts: map<string, nat>, uploadedUrls: seq<string>,
                                                 voxelSizes: Spacing, dataShape: Shape, totalSlices: nat,
                                                 failedUploads: nat)

  /** The upload summary of a non-empty volume. */
  function Upload(l: Loaded, report: Report, reply: nat -> StorageReply, hasCallback: bool): Summary
    requires HasShape(l.volume, l.shape) && l.shape.Size() > 0
  {
    AllUpload(Validities(NormalizeVolume(l.volume, l.shape), l.shape), report, reply, hasCallback, 3)
  }

  /** `process_nifti_to_supabase`; `reply` answers the storage calls in order. */
  function ProcessNiftiToSupabase(load: Result<NiftiImage>, report: Report, reply: nat -> StorageReply,
                                  hasCallback: bool)
    : (r: Result<NiftiUploadResult>)
    requires load.Ok? ==> HasShape(load.value.data.volume, load.value.data.shape)
    ensures r.Ok? ==> load.Ok? && r.value.dataShape == load.value.data.shape
                      && r.value.voxelSizes == VoxelSizes(load.value.zooms)
  {
    if load.Err? then Err(load.message)
    else
      var l := load.value.data;
      if l.shape.Size() == 0 then Err(EmptyDataError)
      else
        var up := ResultOf(Upload(l, report, reply, hasCallback));
        Ok(NiftiUploadResult("success", "NIfTI file processed and uploaded to Supabase successfully",
                             up.sliceCounts, up.uploadedUrls, VoxelSizes(load.value.zooms), l.shape,
                             up.totalSlices, up.failedCount))
  }

  /** Both NIfTI pipelines fail on the same inputs with the same error. */
  lemma SameErrorsAsLocal(load: Result<NiftiImage>, outputDir: string, report: Report,
                          reply: nat -> StorageReply, hasCallback: bool)
    requires load.Ok? ==> HasShape(load.value.data.volume, load.value.data.shape)
    ensures var up := ProcessNiftiToSupabase(load, report, reply, hasCallback);
            var local := ProcessNifti(load, outputDir);
            (up.Err? <==> local.Err?) && (up.Err? ==> up.message == local.message)
  {
  }

  /** The success record: the three views are the keys of `slice_counts`, at
      most five slices each; `total_slices` is the number of URLs, at most
      fifteen; and every upload tried returned a URL or was counted in
      `failed_uploads`. */
  lemma UploadRecord(load: Result<NiftiImage>, report: Report, reply: nat -> StorageReply, hasCallback: bool)
    requires load.Ok? ==> HasShape(load.value.data.volume, load.value.data.shape)
    requires ProcessNiftiToSupabase(load, report, reply, hasCallback).Ok?
    ensures var r := ProcessNiftiToSupabase(load, report, reply, hasCallback).value;
            && r.status == "success"
            && r.sliceCounts.Keys == {"axial", "coronal", "sagittal"}
            && (forall v | v in Views :: r.sliceCounts[v.Name()] <= SliceCap)
            && r.totalSlices == |r.uploadedUrls| <= 3 * SliceCap
            && Upload(load.value.data, report, reply, hasCallback).attempts == r.totalSlices + r.failedUploads
  {
    var l := load.value.data;
    UploadResultFacts(Validities(NormalizeVolume(l.volume, l.shape), l.shape), report, reply, hasCallback);
  }
}
