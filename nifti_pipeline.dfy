/** `process_nifti`: load a NIfTI file, refuse an empty volume, read the voxel
    sizes from the header's zooms, and write the three views. What `nib.load`
    returns (or the error it raises) is an input. */
module NiftiPipeline {
  import opened Wrappers
  import opened Grids
  import opened Slicing
  import opened SliceGenerator

  /** A loaded image: its data array and `header.get_zooms()`. */
  datatype NiftiImage = NiftiImage(data: Loaded, zooms: seq<real>)

  const EmptyDataError := "Empty NIfTI data"

  /** The voxel sizes: zoom k when the header has more than k zooms, else 1 mm. */
  function VoxelSizes(zooms: seq<real>): Spacing {
    Spacing(if |zooms| > 0 then zooms[0] else 1.0,
            if |zooms| > 1 then zooms[1] else 1.0,
            if |zooms| > 2 then zooms[2] else 1.0)
  }

  function Component(sp: Spacing, k: nat): real
    requires k < 3
  {
    if k == 0 then sp.x else if k == 1 then sp.y else sp.z
  }

  /** Each axis takes its own zoom when there is one and 1 mm otherwise; a
      time zoom or any zoom after the third is ignored; a header with no
      zooms gives the default. */
  lemma VoxelSizesFacts(zooms: seq<real>)
    ensures forall k | 0 <= k < 3 :: Component(VoxelSizes(zooms), k) == if k < |zooms| then zooms[k] else 1.0
    ensures |zooms| >= 3 ==> VoxelSizes(zooms) == VoxelSizes(zooms[..3])
    ensures |zooms| == 0 ==> VoxelSizes(zooms) == DefaultSpacing
  {
  }

  /** The dictionary `process_nifti` returns. */
  datatype NiftiResult = NiftiResult(status: string, message: string, sliceCounts: map<string, nat>,
                                     voxelSizes: Spacing, dataShape: Shape, totalSlices: nat)

  /** `process_nifti`: a load error propagates, an empty volume raises
      "Empty NIfTI data", otherwise the three views are generated. */
  function ProcessNifti(load: Result<NiftiImage>, outputDir: string): (r: Result<NiftiResult>)
    requires load.Ok? ==> HasShape(load.value.data.volume, load.value.data.shape)
    ensures load.Err? ==> r == Err(load.message)
    ensures load.Ok? ==> (r == Err(EmptyDataError) <==> load.value.data.shape.Size() == 0)
    ensures r.Ok? ==> r.value.dataShape == load.value.data.shape && r.value.voxelSizes == VoxelSizes(load.value.zooms)
  {
    if load.Err? then Err(load.message)
    else
      var l := load.value.data;
      if l.shape.Size() == 0 then Err(EmptyDataError)
      else
        var counts := CountsMap(Sizes(Validities(NormalizeVolume(l.volume, l.shape), l.shape), outputDir), 3);
        Ok(NiftiResult("success", "NIfTI file processed successfully", counts, VoxelSizes(load.value.zooms),
                       l.shape, TotalOf(counts)))
  }

  /** The files `generate_all_slices` writes for a non-empty volume. */
  function Written(l: Loaded, outputDir: string): seq<SliceFile>
    requires HasShape(l.volume, l.shape) && l.shape.Size() > 0
  {
    AllSaves(Validities(NormalizeVolume(l.volume, l.shape), l.shape), outputDir, 3)
  }

  /** The success record: the three views are the keys, and `total_slices` is
      their sum and the number of files written. */
  lemma ProcessNiftiResult(load: Result<NiftiImage>, outputDir: string)
    requires load.Ok? ==> HasShape(load.value.data.volume, load.value.data.shape)
    requires ProcessNifti(load, outputDir).Ok?
    ensures var r := ProcessNifti(load, outputDir).value;
            && r.status == "success"
            && r.sliceCounts.Keys == {"axial", "coronal", "sagittal"}
            && r.totalSlices == r.sliceCounts["axial"] + r.sliceCounts["coronal"] + r.sliceCounts["sagittal"]
            && r.totalSlices == |Written(load.value.data, outputDir)|
  {
    var l := load.value.data;
    var vs := Validities(NormalizeVolume(l.volume, l.shape), l.shape);
    TotalIsFilesWritten(vs, outputDir);
    CountsMapFull(Sizes(vs, outputDir));
  }
}
