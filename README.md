# serverAI core, modelled in Dafny

serverAI is a Flask and Celery back end for dental imaging. It accepts uploads
of CBCT volumes (DICOM series or NIfTI files) and panoramic X-rays. A volume is
normalised to 8-bit grey levels and cut into axial, coronal and sagittal JPEG
slices, which are written to disk or uploaded to the `reports` bucket of
Supabase storage. A panoramic image goes through tooth segmentation and
per-tooth classification and becomes a JSON report of teeth, problems and
statistics. A CBCT volume is segmented into teeth by the TotalSegmentator
tool, whose per-tooth masks are merged into one label volume. Each tooth is
screened by problem detectors, and the result becomes a report of the same
shape. A model manager keeps the registry of AI models in Redis, together
with the model that is active for each model type.

This project models that core and proves properties of the model. Each
Python module becomes one Dafny module:

| Dafny file | models |
|---|---|
| `slicing.dfy`, `slice_generator.dfy` | `app/core/processing/base.py` (and the copies of its helpers in the other slicers) |
| `slice_uploader.dfy` | `app/core/processing/supabase_uploader.py` |
| `dicom_loader.dfy`, `dicom_volume.dfy`, `dicom_pipeline.dfy`, `dicom_supabase.dfy` | `app/core/processing/dicom/` |
| `nifti_pipeline.dfy`, `nifti_supabase.dfy` | `app/core/processing/nifti/` |
| `local_nifti_uploader.dfy`, `nifti_slicer.dfy` | the two stand-alone slicing scripts, `local_nifti_uploader.py` and `docs/nifti_slicer.py` |
| `pano_analyzer.dfy`, `pano_report.dfy` | `app/domains/pano/analyzer.py`, `report.py` |
| `cbct_analyzer.dfy`, `cbct_report.dfy` | `app/domains/cbct/analyzer.py`, `report_template.py` |
| `model_manager.dfy` | `app/services/model_manager.py` |
| `validators.dfy` | `app/utils/file_upload/validators.py` |
| `full_report.dfy` | `docs/generate_full_report.py` |
| `wrappers.dfy`, `text.dfy`, `builtins.dfy`, `grids.dfy` | the Python and numpy behaviour the modules rely on: `Option`/`Result`, string operations, `int()` truncation, and sums, minima, maxima and standard deviations over arrays |

The record types the code passes around are datatypes. `ModelManager`,
whose singleton fields change in place, is the class `ModelManager.Registry`.
A loop in the source is a `method` with a `while` or `for` loop, proved
against a recursive function over prefixes of its input. The lemmas state
what the code promises about those functions. Everything outside the program
becomes a parameter the caller supplies: file reads, storage replies,
network models, random draws, clocks and identifiers. For example, the reply
to the k-th upload attempt of a call is `reply(k)`.

A few places where the code behaves otherwise than a reader might expect. In
each, the model does what the code does:

- Slice normalisation truncates rather than rounding to the nearest grey
  level, because the cast is `astype(np.uint8)`. `Slicing.ScaleVoxel` models
  the truncation.
- The uploader in `supabase_uploader.py` does not report progress at every
  20th raw index. An invalid slice `continue`s before the callback, and the
  fifth upload `break`s before it. So the uploader reports only valid slices,
  at raw indices that are multiples of 20
  (`SliceUploader.ViewUploadConsistent`). The disk slicer (`base.py`) reports
  every such index, valid or not (`SliceGenerator.ViewProgressCount`).
- The cap of five uploaded slices per view is a literal in the code, not a
  configuration value. The model keeps it as the constant
  `SliceUploader.SliceCap`.
- `.nii.gz` is in the accepted extensions of `app/config/base.py` and
  `app/api/upload.py`. The validator compares only the last extension, so it
  refuses that type (see "Findings").

## Model

| member | source | states |
|---|---|---|
| Slicing.ScaleVoxel | app/core/processing/base.py:38-39 | a voxel between the volume's minimum and maximum becomes a grey level in 0..255; the minimum becomes 0, and so does every voxel of a constant volume; the maximum of a non-constant volume becomes 255 |
| Slicing.ScaleMonotone | app/core/processing/base.py:38-39 | normalisation keeps order: a brighter voxel never gets a darker grey level |
| Slicing.VoxelBetweenExtremes | app/core/processing/base.py:32 | every voxel lies between `volume.min()` and `volume.max()` |
| Slicing.NormalizeVolume | app/core/processing/base.py:22-39 | the normalised volume has the input's shape, and each cell is its voxel's grey level in 0..255, computed with the minimum and maximum of the whole volume |
| Slicing.NormalizeConstant | app/core/processing/base.py:34-36 | a constant-intensity volume normalises to all zeros |
| Slicing.NormalizeExtremes | app/core/processing/base.py:38-39 | voxels at the minimum become 0; in a non-constant volume, voxels at the maximum become 255 |
| Slicing.NormalizeKeepsOrder | app/core/processing/base.py:38-39 | any two voxels keep their order after normalisation |
| Slicing.ExtractSlice | app/core/processing/base.py:42-59 | a slice is a grid over the two dimensions other than its axis |
| Slicing.SliceCell | app/core/processing/base.py:54-59 | cell (a, b) of a slice is `volume[index, a, b]` for axis 0, `volume[a, index, b]` for axis 1, and `volume[a, b, index]` for any other axis |
| Slicing.VoxelInItsSlice | app/core/processing/base.py:42-59 | each voxel (i, j, k) appears at (j, k) of sagittal slice i, at (i, k) of coronal slice j, and at (i, j) of axial slice k |
| Slicing.Rot90 | docs/nifti_slicer.py:44 | `np.rot90` turns a rows x cols grid into a cols x rows grid; cell (a, b) of the result is cell (b, cols-1-a) of the input |
| Slicing.Rot90FourTimes | docs/nifti_slicer.py:44 | four quarter turns give back the original slice |
| Slicing.ExtractRotated | docs/nifti_slicer.py:36-52 | the scripts' rotated slice has the service slice's dimensions swapped |
| Slicing.ConstantSliceRejected | app/core/processing/base.py:72 | a constant slice (an all-zero one included) fails `is_valid_slice`, and the scripts' `std < 1` test skips it |
| Slicing.SpreadImpliesNonZero | app/core/processing/base.py:72 | a slice whose standard deviation exceeds 1 has a non-zero pixel, so `np.any` never decides validity alone |
| Slicing.StdExactlyOne | docs/nifti_slicer.py:60 | the two keep rules differ at standard deviation exactly 1: the slice [0, 2] is invalid for the service but kept by the scripts |
| Slicing.ValidNotSkipped | docs/nifti_slicer.py:60 | every slice the service keeps is also kept by the scripts |
| Slicing.SliceValidity | app/core/processing/base.py:137-140 | a view has one validity flag per raw slice index along its axis, and flag i is `is_valid_slice` of slice i |
| Slicing.CountValid | app/core/processing/base.py:141 | the number of valid slices among the first k never exceeds k |
| Slicing.ScriptKeeps | docs/nifti_slicer.py:95-98 | the scripts keep slice i of a view exactly when its rotated slice is not skipped |
| Slicing.CountsMapFull | app/core/processing/base.py:128-150 | after the three views, `slice_counts` has exactly the keys axial, coronal and sagittal, each holds its own view's count, and the values sum to the three counts |
| SliceGenerator.SlicePathIsJoin | app/core/processing/base.py:100-105 | a slice is written to `os.path.join(os.path.join(output_dir, view), f"{index}.jpg")` |
| SliceGenerator.SlicePathInjective | app/core/processing/base.py:105 | two slices of one view with different indices never share a file |
| SliceGenerator.SaveSlice | app/core/processing/base.py:95-108 | `save_slice` returns None exactly when the slice is invalid; otherwise it returns the file for that output directory, view and index |
| SliceGenerator.ViewSaves | app/core/processing/base.py:137-141 | a view writes exactly one file per valid slice |
| SliceGenerator.ViewSaveAt | app/core/processing/base.py:140-141 | the j-th file a view writes is named j, because `saved_count` rather than the loop index names the file; names have no gaps |
| SliceGenerator.ViewSavesExtremes | app/core/processing/base.py:137-141 | a view with no valid slice writes nothing; a view whose slices are all valid writes one file per slice |
| SliceGenerator.ViewProgressCalls | app/core/processing/base.py:144-145 | without a callback nothing is reported; each report names the view and its slice count, and gives a raw index below k that is a multiple of 20 |
| SliceGenerator.ViewProgressCount | app/core/processing/base.py:144-145 | with a callback, k slices give ceil(k / 20) reports, at raw indices 0, 20, 40, ... in order, whether the slices are valid or not |
| SliceGenerator.CountsAreValidSlices | app/core/processing/base.py:147 | `slice_counts[view]` is the number of valid slices of that view |
| SliceGenerator.TotalIsFilesWritten | app/core/processing/base.py:128-150 | the counts sum to the number of files written |
| SliceGenerator.SaveViewSlice | app/core/processing/base.py:138-141 | slice i yields the file numbered `saved_count` when it is valid, and nothing otherwise |
| SliceGenerator.GenerateView | app/core/processing/base.py:130-147 | the inner loop writes exactly the files of `ViewSaves` and makes exactly the progress calls of `ViewProgress`; its final `saved_count` is the number of files |
| SliceGenerator.GenerateViews | app/core/processing/base.py:130-147 | the view loop yields the counts dictionary, the files and the progress calls of the three views in the order axial, coronal, sagittal |
| SliceGenerator.GenerateAllSlices | app/core/processing/base.py:111-150 | `generate_all_slices` normalises once and then runs the view loop on the normalised volume |
| SliceUploader.ViewUploadConsistent | app/core/processing/supabase_uploader.py:110-152 | after any prefix of a view: one URL and one stored object per successful upload, at most five; the loop stops exactly at the fifth; objects are numbered 0, 1, ... in order; every attempt succeeded or failed; there are no more attempts than valid slices; URLs are non-empty; each progress call is for a valid slice at a raw index that is a multiple of 20 |
| SliceUploader.ViewUploadAttempts | app/core/processing/supabase_uploader.py:117-148 | after any prefix of a view: the failures are exactly the storage answers without a URL among the attempts made, and until the view stops every valid slice has been attempted once |
| SliceUploader.StoppedStable | app/core/processing/supabase_uploader.py:143-146 | once a view reaches the cap, its later slices change nothing |
| SliceUploader.ReliableStorage | app/core/processing/supabase_uploader.py:139-146 | when every upload returns a URL, a view stores min(valid slices, 5) objects and nothing fails |
| SliceUploader.FailingStorage | app/core/processing/supabase_uploader.py:147-148 | when every upload fails, a view stores nothing, and every valid slice is counted as a failure |
| SliceUploader.StoredPathsDistinct | app/core/processing/supabase_uploader.py:78 | two objects of one report and view with different indices have different storage paths |
| SliceUploader.StepInvalid | app/core/processing/supabase_uploader.py:122-123 | an invalid slice leaves the view's state unchanged, including the progress calls |
| SliceUploader.StepStored | app/core/processing/supabase_uploader.py:129-146 | a successful upload appends its URL and an object numbered `saved_count`; the fifth one stops the view before the progress call |
| SliceUploader.StepFailed | app/core/processing/supabase_uploader.py:147-152 | a failed upload increments `failed_count`, stores nothing (the next valid slice reuses the index), and is still reported to the callback |
| SliceUploader.UploadView | app/core/processing/supabase_uploader.py:117-152 | the inner loop yields exactly the view state `ViewUpload` describes |
| SliceUploader.AllUploadFacts | app/core/processing/supabase_uploader.py:105-162 | over the views: each count is at most 5; the URLs number the sum of the counts and are non-empty; the stored objects are each view's objects 0..count-1 in view order; attempts are uploads plus failures |
| SliceUploader.UploadResultFacts | app/core/processing/supabase_uploader.py:154-162 | the result's `slice_counts` has exactly the three view keys, each at most 5; `total_slices` is the number of uploaded URLs, at most 15; every attempt is counted as an upload or in `failed_count`; the stored objects are `0.jpg` up to count-1 of axial, then coronal, then sagittal |
| SliceUploader.UploadViews | app/core/processing/supabase_uploader.py:110-162 | the view loop returns the result dictionary, the stored objects and the progress calls of the specification |
| SliceUploader.UploadAllSlices | app/core/processing/supabase_uploader.py:96-165 | `upload_all_slices` normalises once and runs the view loop on the validity of the normalised slices |
| DicomLoader.ReadAt | app/core/processing/dicom/loader.py:33-34 | `seek(offset); read(count)` gives at most `count` bytes, and exactly `bytes[offset..offset+count]` when the file is long enough |
| DicomLoader.IsDicomFileExactly | app/core/processing/dicom/loader.py:21-36 | `is_dicom_file` holds exactly for a readable file of at least 132 bytes whose bytes 128..131 spell `DICM`; an open error gives false |
| DicomLoader.PreambleThenMagic | app/core/processing/dicom/loader.py:32-34 | any 128-byte preamble followed by `DICM` passes the magic test, whatever comes after it |
| DicomLoader.AcceptanceRule | app/core/processing/dicom/loader.py:57-63 | a file is taken exactly when its lower-cased extension is `.dcm`, `.dicom` or `.ima` (checked with or without the magic), or when it has no extension and carries the magic; any other extension is refused even with the magic |
| DicomLoader.AcceptanceAt | app/core/processing/dicom/loader.py:51-63 | the decision for each walked file is the acceptance rule on that file's own extension and content |
| DicomLoader.FoundOrigins | app/core/processing/dicom/loader.py:49-66 | the j-th path found is the `os.path.join(root, file)` of the j-th accepted file, in walk order |
| DicomLoader.TakeFile | app/core/processing/dicom/loader.py:53-63 | one file's test returns the acceptance decision for that file |
| DicomLoader.FindDicomFiles | app/core/processing/dicom/loader.py:39-66 | the walk loop returns the paths of exactly the accepted files, in walk order |
| DicomLoader.Check | app/core/processing/dicom/loader.py:85-104 | a path is loaded exactly when `dcmread` succeeds and yields a non-empty `pixel_array`; the slice keeps that path |
| DicomLoader.RejectionReasons | app/core/processing/dicom/loader.py:89-103 | the failure reasons are the exception text, "No pixel data" and "Empty pixel array", in that order of precedence |
| DicomLoader.Verdicts | app/core/processing/dicom/loader.py:84-104 | each path gets the verdict of its own read, in input order |
| DicomLoader.PartitionOrigins | app/core/processing/dicom/loader.py:81-110 | `valid_slices` holds the loaded slices and `failed_files` the (path, reason) pairs of the rejected paths; both keep input order |
| DicomLoader.PartitionCount | app/core/processing/dicom/loader.py:81-110 | every path ends in exactly one of the two lists |
| DicomLoader.CheckPath | app/core/processing/dicom/loader.py:85-104 | the body of the loop yields the verdict `Check` states |
| DicomLoader.LoadAndValidate | app/core/processing/dicom/loader.py:69-110 | the loop returns the partition of the paths by their verdicts |
| DicomLoader.SortKeyPrecedence | app/core/processing/dicom/loader.py:123-133 | a set SliceLocation decides the key whatever else the dataset holds; without it, the z of ImagePositionPatient decides; a dataset with none of the three sorts as 0 |
| DicomLoader.BeforeIrreflexive | app/core/processing/dicom/loader.py:136 | no slice comes before itself in the stable order |
| DicomLoader.BeforeTotal | app/core/processing/dicom/loader.py:136 | of two different slices, one comes before the other |
| DicomLoader.BeforeTransitive | app/core/processing/dicom/loader.py:136 | the stable order is transitive |
| DicomLoader.InsertFacts | app/core/processing/dicom/loader.py:136 | inserting a slice into a sorted order adds exactly that slice and keeps the order sorted |
| DicomLoader.StableOrder | app/core/processing/dicom/loader.py:136 | `sorted` returns a permutation of the slices, ordered by key, with ties kept in input order |
| DicomLoader.StableOrderDistinct | app/core/processing/dicom/loader.py:136 | no slice appears twice in the sorted order |
| DicomLoader.SortSlicesFacts | app/core/processing/dicom/loader.py:113-140 | `sort_slices` returns a permutation of its input, non-decreasing by key and stable on ties; the keys are the metadata positions when every slice has one, and otherwise the file paths (the fallback after a key raises) |
| DicomLoader.OneBadKeySortsByPath | app/core/processing/dicom/loader.py:135-140 | a single slice whose key raises sends the whole list to the by-filename sort |
| DicomVolume.FloatOr | app/core/processing/dicom/volume.py:33-34 | `float(x) if x else default`: a falsy value gives the default, a number itself, and an unconvertible value raises |
| DicomVolume.Rescale | app/core/processing/dicom/volume.py:35 | each pixel becomes `pixel * slope + intercept`, and the image keeps its shape |
| DicomVolume.Convert | app/core/processing/dicom/volume.py:29-43 | without both Rescale attributes the pixels pass unchanged; the slice is skipped exactly when both are present and one cannot be converted; a kept image keeps its shape |
| DicomVolume.RescaleApplied | app/core/processing/dicom/volume.py:32-35 | with both attributes convertible, the pixels are rescaled by the slope (1 when it is None or 0) and the intercept (0 when it is None) |
| DicomVolume.NeutralRescale | app/core/processing/dicom/volume.py:33-34 | falsy slope and intercept leave the pixels unchanged |
| DicomVolume.SurvivorsOrigins | app/core/processing/dicom/volume.py:27-43 | the j-th image stacked is the conversion of the j-th slice that is not skipped, in sorted order |
| DicomVolume.SurvivorsAtMost | app/core/processing/dicom/volume.py:41-43 | a skipped slice contributes nothing, so no more images than slices are stacked |
| DicomVolume.SurvivorsEmpty | app/core/processing/dicom/volume.py:45-46 | no image survives exactly when every slice is skipped |
| DicomVolume.Stack | app/core/processing/dicom/volume.py:49 | `np.stack(..., axis=2)` of k images of rows x cols is a rows x cols x k volume |
| DicomVolume.StackSlice | app/core/processing/dicom/volume.py:49 | axial slice k of the stack is the k-th image |
| DicomVolume.StackAll | app/core/processing/dicom/volume.py:45-52 | stacking succeeds exactly when there is an image and all images have the first one's shape; no image is the "No valid pixel data" error |
| DicomVolume.StackNonEmpty | app/core/processing/dicom/volume.py:45-52 | stacked images that each have a cell give a volume without empty dimensions |
| DicomVolume.ConvertKeepsCells | app/core/processing/dicom/volume.py:35-38 | rescaling does not empty a non-empty image |
| DicomVolume.ConvertSlice | app/core/processing/dicom/volume.py:30-43 | the body of the loop converts or skips the slice as `Convert` states |
| DicomVolume.CreateVolume | app/core/processing/dicom/volume.py:17-52 | the loop stacks the surviving images of the slices in sorted order |
| DicomVolume.CreateVolumeFacts | app/core/processing/dicom/volume.py:17-52 | the volume has one axial slice per surviving DICOM slice, and axial slice k is the rescaled pixels of the k-th survivor; "No valid pixel data" is raised exactly when every slice is skipped |
| DicomVolume.ExtractMetadata | app/core/processing/dicom/volume.py:55-94 | when the thickness or one of the first two entries of a PixelSpacing list does not convert, all three axes are 1.0; otherwise x and y are the first two entries of a PixelSpacing list of at least two, else 1.0, and z is a truthy SliceThickness, else 1.0 |
| DicomVolume.MetadataRead | app/core/processing/dicom/volume.py:70-83 | a PixelSpacing list and a SliceThickness are read as given, and a zero thickness becomes 1.0 |
| DicomVolume.MetadataDefaults | app/core/processing/dicom/volume.py:66-77 | missing or short PixelSpacing and a missing or falsy SliceThickness give 1.0 mm on every axis |
| DicomVolume.MetadataThicknessOnly | app/core/processing/dicom/volume.py:66-77 | a non-zero SliceThickness with a PixelSpacing that is absent or not a list of two gives 1.0, 1.0 and that thickness |
| DicomVolume.MetadataFailure | app/core/processing/dicom/volume.py:88-94 | an unconvertible thickness, or a first or second PixelSpacing entry that is not a number, throws away the whole metadata, even values that convert, and gives all defaults |
| DicomPipeline.Assemble | app/core/processing/dicom/__init__.py:46-63 | the first five steps give a shaped volume from at least one sorted slice, with the spacing of the first sorted slice; every candidate file is loaded or failed; the volume has no more axial slices than sorted slices |
| DicomPipeline.SortedHaveCells | app/core/processing/dicom/__init__.py:52-57 | every sorted slice has at least one pixel |
| DicomPipeline.AssembledNonEmpty | app/core/processing/dicom/__init__.py:59-60 | an assembled volume has no empty dimension, so normalisation is defined on it |
| DicomPipeline.ProcessDicom | app/core/processing/dicom/__init__.py:16-86 | `process_dicom` fails exactly when assembly fails, with the same message |
| DicomPipeline.ProcessDicomErrors | app/core/processing/dicom/__init__.py:47-54 | "No DICOM files found in directory" exactly when no file is a candidate; "No valid DICOM slices could be loaded" exactly when there are candidates and none loads |
| DicomPipeline.GeneratedCounts | app/core/processing/dicom/__init__.py:66-76 | the slice counts have the three view keys, and their total is both the sum of those keys and the number of files written |
| DicomPipeline.ProcessDicomResult | app/core/processing/dicom/__init__.py:70-79 | the result has status success and the three view counts; `total_slices` is their sum and the number of files written; `dicom_files_processed` is the number of sorted slices and is positive; it plus `failed_files` is the number of candidates; `data_shape` is non-empty with at most that many axial slices; `voxel_sizes` is the first sorted slice's spacing |
| DicomSupabase.ProcessDicomToSupabase | app/core/processing/dicom/supabase.py:16-104 | the upload pipeline fails exactly when assembly fails |
| DicomSupabase.UploadedFacts | app/core/processing/dicom/supabase.py:76-96 | the upload part has the three view counts, each at most 5; `total_slices` is the number of URLs, at most 15; every attempt is an upload or a failed upload |
| DicomSupabase.SameAsLocal | app/core/processing/dicom/supabase.py:56-73 | the upload pipeline raises exactly when `process_dicom` does, with the same message; otherwise both report the same voxel sizes, shape and file counts |
| DicomSupabase.UploadRecord | app/core/processing/dicom/supabase.py:86-97 | the result has status success and the three view counts, each at most 5; `total_slices` is the number of URLs; every upload attempt is counted in `total_slices` or in `failed_uploads`; processed plus failed files is the number of candidates |
| NiftiPipeline.VoxelSizesFacts | app/core/processing/nifti/__init__.py:56-61 | spacing k is `zooms[k]` when present and 1.0 otherwise; zooms past the third are ignored; no zooms give 1.0 mm on every axis |
| NiftiPipeline.ProcessNifti | app/core/processing/nifti/__init__.py:16-84 | a load error propagates with its message; "Empty NIfTI data" is raised exactly when the volume has no voxel; a result carries the volume's shape and the voxel sizes of its zooms |
| NiftiPipeline.ProcessNiftiResult | app/core/processing/nifti/__init__.py:70-77 | the result has status success and the three view counts; `total_slices` is their sum and the number of files written |
| NiftiSupabase.ProcessNiftiToSupabase | app/core/processing/nifti/supabase.py:15-101 | a result comes from a successful load and carries its shape and voxel sizes |
| NiftiSupabase.SameErrorsAsLocal | app/core/processing/nifti/supabase.py:54-60 | the upload pipeline raises exactly when `process_nifti` does, with the same message |
| NiftiSupabase.UploadRecord | app/core/processing/nifti/supabase.py:85-94 | the result has status success and the three view counts, each at most 5; `total_slices` is the number of URLs, at most 15; every attempt is counted in `total_slices` or in `failed_uploads` |
| LocalNiftiUploader.NewUploader | local_nifti_uploader.py:31-37 | a client is created exactly when both credentials are non-empty and free of the placeholder, and then with exactly those credentials; a bad URL is reported as such whatever the key, and a bad key only after a good URL |
| LocalNiftiUploader.PlaceholderUrlRejected | local_nifti_uploader.py:32-33 | a URL containing `YOUR_SUPABASE` is refused whatever the key, with the URL message, because the URL is checked first |
| LocalNiftiUploader.PlaceholderKeyRejected | local_nifti_uploader.py:34-35 | with a usable URL, a key containing the placeholder is refused with the key message |
| LocalNiftiUploader.DefaultsRejected | local_nifti_uploader.py:15-16 | the built-in default credentials never create a client |
| LocalNiftiUploader.ViewTallyCounts | local_nifti_uploader.py:124-138 | every slice kept by `std >= 1` is uploaded exactly once, and no more objects are uploaded than slices kept |
| LocalNiftiUploader.ViewTallyTargets | local_nifti_uploader.py:132-138 | each uploaded object belongs to its report and view, and is named by the raw index of a kept slice; names strictly increase |
| LocalNiftiUploader.ReliableUploadsAll | local_nifti_uploader.py:124-138 | when every upload succeeds, every kept slice i is stored as `i.jpg` |
| LocalNiftiUploader.FailingUploadsNone | local_nifti_uploader.py:137-138 | when every upload fails, nothing is counted as uploaded |
| LocalNiftiUploader.IndicesKeepGaps | local_nifti_uploader.py:134 | unlike the service, an object name leaves gaps: if only slice 1 of two is kept, it is stored as `1.jpg` |
| LocalNiftiUploader.StepSkipped | local_nifti_uploader.py:129-130 | a skipped slice attempts nothing |
| LocalNiftiUploader.StepUploaded | local_nifti_uploader.py:134-138 | a successful upload stores the slice under its raw index and counts it |
| LocalNiftiUploader.StepRefused | local_nifti_uploader.py:137 | a failed upload is attempted but not counted |
| LocalNiftiUploader.UploadKeptSlices | local_nifti_uploader.py:122-141 | the inner loop makes exactly the uploads and attempts of `ViewTally` |
| LocalNiftiUploader.TotalIsSumOfViews | local_nifti_uploader.py:115-144 | `total_uploaded` is the sum of the views' counts and the number of objects stored; one attempt is made per kept slice of each view; no view uploads more than it keeps |
| LocalNiftiUploader.UploadViews | local_nifti_uploader.py:117-144 | the view loop returns the per-view counts, the objects and the attempts of `AllTallies` |
| LocalNiftiUploader.ProcessAndUpload | local_nifti_uploader.py:87-146 | a missing file and a load error end the run early, each with its own message; an empty volume makes normalisation raise; otherwise the run uploads the kept slices of the three views under report type `cbct` |
| NiftiSlicer.PathIsJoin | docs/nifti_slicer.py:64-69 | a slice is written to `os.path.join(os.path.join(output_dir, view), f"{index:04d}.jpg")` |
| NiftiSlicer.PathInjective | docs/nifti_slicer.py:69 | two slices of one view with different indices never share a file, padded or not |
| NiftiSlicer.SevenIsPadded | docs/nifti_slicer.py:69 | index 7 is written as `0007.jpg` |
| NiftiSlicer.SaveSlice | docs/nifti_slicer.py:55-70 | `save_slice` writes nothing and returns False exactly when `std < 1`; otherwise it writes the file of that view and index |
| NiftiSlicer.ServiceSlicesWritten | docs/nifti_slicer.py:60-70 | every slice the service would keep is written by the script |
| NiftiSlicer.ViewFilesFacts | docs/nifti_slicer.py:95-98 | `view_saved` is the number of kept slices; each file written is a kept slice of the view under its raw index; every kept slice is written; names strictly increase |
| NiftiSlicer.StepKept | docs/nifti_slicer.py:97-98 | a kept slice appends its file |
| NiftiSlicer.StepSkipped | docs/nifti_slicer.py:97 | a skipped slice writes nothing |
| NiftiSlicer.SaveViewSlices | docs/nifti_slicer.py:94-98 | the inner loop writes exactly the files of `ViewFiles`, and `view_saved` is their number |
| NiftiSlicer.AllSavedFacts | docs/nifti_slicer.py:86-101 | each view's count is its number of kept slices, and the files number the sum of the counts |
| NiftiSlicer.AllSavedDistinct | docs/nifti_slicer.py:89-101 | no file is written twice, and every file belongs to one of the views already walked |
| NiftiSlicer.SaveViews | docs/nifti_slicer.py:89-101 | the view loop writes the files of the three views, and `total_saved` is the sum of the counts |
| NiftiSlicer.ProcessFile | docs/nifti_slicer.py:73-107 | a load error, and numpy's error on an empty volume, are caught and reported; otherwise the files and `total_saved` are those of the normalised volume's kept slices |
| PanoAnalyzer.Classify | app/domains/pano/analyzer.py:265-280 | as written: a tooth number is reported only for an upper or lower tooth, and it is the class's own text after the jaw letter; the type is bridge exactly for the class "b" |
| PanoAnalyzer.ClassifyFixed | app/domains/pano/analyzer.py:265-280 | the corrected classification, with the denture test first: a number only for an upper or lower tooth, the class's text after the jaw letter; bridge exactly for "b" and denture exactly for "de" |
| PanoAnalyzer.FixedDiffersOnlyOnDenture | app/domains/pano/analyzer.py:265-280 | the corrected classification agrees with the written one on every class except "de" |
| PanoAnalyzer.ClassifyRules | app/domains/pano/analyzer.py:266-280 | a class starting with `d`, "de" included, is a lower tooth and one starting with `u` an upper tooth, numbered by the rest of the class (None when there is no rest); any other class except "b" is unknown |
| PanoAnalyzer.ClassifyRoundTrip | app/domains/pano/analyzer.py:266-271 | writing a jaw letter before a decimal tooth number and classifying the result gives back that jaw and that number; the corrected classification agrees there |
| PanoAnalyzer.DentureUnreachable | app/domains/pano/analyzer.py:275-277 | the `denture` branch is never taken: "de" starts with `d`, so it is read as lower tooth "e" |
| PanoAnalyzer.ToSegment | app/domains/pano/analyzer.py:282-297 | a segment keeps the prediction's detection id, class and confidence, and takes its type and number from the class as the code classifies it |
| PanoAnalyzer.ToSegmentFixed | app/domains/pano/analyzer.py:282-297 | under the corrected classification a segment keeps the same id, class and confidence, and it agrees with the code's segment on every class but "de", which it makes a denture where the code makes a lower tooth |
| PanoAnalyzer.ParseSegments | app/domains/pano/analyzer.py:259-297 | the parse loop yields one segment per prediction, in order |
| PanoAnalyzer.WinnersKeys | app/domains/pano/analyzer.py:300-306 | `unique_teeth` has exactly the classes seen so far as keys |
| PanoAnalyzer.WinnersBest | app/domains/pano/analyzer.py:305-306 | the tooth kept for a class has the highest confidence of that class, and is the first one seen with it, since only a strictly higher confidence replaces it |
| PanoAnalyzer.FirstOfClass | app/domains/pano/analyzer.py:305 | a class missing from `unique_teeth` has not been seen yet |
| PanoAnalyzer.KeptAreWinners | app/domains/pano/analyzer.py:300-310 | listed in first-seen order, each kept tooth is its class's winner |
| PanoAnalyzer.DedupClasses | app/domains/pano/analyzer.py:300-310 | deduplication keeps one tooth per class taken from the input; no two kept teeth share a class; every input class is represented; classes come in first-seen order, as dict insertion order gives them |
| PanoAnalyzer.DedupMostConfident | app/domains/pano/analyzer.py:305-306 | no tooth of a class is more confident than the kept one, and every earlier tooth of that class is strictly less confident |
| PanoAnalyzer.KeepBetter | app/domains/pano/analyzer.py:302-306 | one step of the filter loop keeps the loop invariant: the dictionary holds the winners of the prefix, and the keys are in first-seen order |
| PanoAnalyzer.DeduplicateTeeth | app/domains/pano/analyzer.py:299-310 | the filter loop returns exactly the deduplicated teeth |
| PanoAnalyzer.SegmentTeeth | app/domains/pano/analyzer.py:259-319 | stage 1 returns the deduplicated segments of the predictions |
| PanoAnalyzer.NearestFacts | app/domains/pano/analyzer.py:453-477 | no tooth is chosen exactly when the problem's centre lies inside no tooth's box (edges included); otherwise the chosen tooth contains the centre, no containing tooth has a closer centre, and ties go to the first such tooth |
| PanoAnalyzer.Hits | app/domains/pano/analyzer.py:479 | a problem is mapped exactly when some tooth contains its centre |
| PanoAnalyzer.MappedOrigins | app/domains/pano/analyzer.py:442-493 | the j-th mapped finding comes from the j-th problem that some tooth contains, in input order, and carries that problem on its nearest containing tooth |
| PanoAnalyzer.NearestTooth | app/domains/pano/analyzer.py:453-477 | the inner loop returns the containing tooth with the nearest centre, the first one on ties |
| PanoAnalyzer.MapProblemsToTeeth | app/domains/pano/analyzer.py:446-493 | the outer loop returns exactly the mapped findings |
| PanoAnalyzer.CropBox | app/domains/pano/analyzer.py:534-559 | a crop needs a readable image and lies inside it with positive width and height; a readable image gives no crop only when the padded, clamped box is empty on one axis |
| PanoAnalyzer.CropHoldsCentre | app/domains/pano/analyzer.py:541-559 | a box whose centre lies in the image always gives a crop, and the crop contains the centre |
| PanoAnalyzer.PerToothSkips | app/domains/pano/analyzer.py:387-401 | the per-tooth strategy never reports a finding on a bridge, a denture or an unknown object, and every finding names a segmented tooth |
| PanoAnalyzer.DetectProblems | app/domains/pano/analyzer.py:321-332 | the global strategy maps at most one finding per raw detection; every finding names a segmented tooth; with `PER_TOOTH`, no finding is on a bridge, denture or unknown object |
| PanoAnalyzer.GenerateSummary | app/domains/pano/analyzer.py:495-521 | the counting loop returns the summary of `SummaryOf` |
| PanoAnalyzer.SummaryFacts | app/domains/pano/analyzer.py:495-521 | `total_findings` is the number of findings, and attention is required exactly when there is one; `by_type` and `by_severity` count each value's occurrences, a missing severity counting as "unknown"; each sums to the total; `by_type` has exactly the problems that occur as keys |
| PanoAnalyzer.AnalyzePanoImage | app/domains/pano/analyzer.py:117-157 | the analysis holds the deduplicated teeth and their number, the findings of the configured strategy on those teeth, and their summary |
| PanoReport.CleanToothNum | app/domains/pano/report.py:24-30 | `clean_tooth_num` raises exactly on None; a string gives a non-negative number, and 0 when it has no digit |
| PanoReport.CleanNumberAfterPrefix | app/domains/pano/report.py:25-29 | a digit-free prefix followed by the decimal digits of n (`d15`, `u3`, `15`) cleans to n |
| PanoReport.RawNumber | app/domains/pano/report.py:34 | a truthy `tooth_number` is used as it is; otherwise `tooth_class` is used, and "0" when that key is absent too |
| PanoReport.AttachedTo | app/domains/pano/report.py:40 | marks each finding whose `tooth_detection_id` equals the tooth's detection id |
| PanoReport.ProblemsOfOrigins | app/domains/pano/report.py:38-41 | a tooth's problems are exactly the findings carrying its detection id, in the order of the findings |
| PanoReport.CategoryOf | app/domains/pano/report.py:44-52 | a tooth is Healthy exactly when none of its problems, lower-cased, is a listed pathology or restoration |
| PanoReport.CategoryMonotone | app/domains/pano/report.py:44-52 | more problems never make a category less serious (Healthy, then Treated, then Unhealthy) |
| PanoReport.CategoryIgnoresCase | app/domains/pano/report.py:44-45 | the category depends on the problem names only up to case |
| PanoReport.RootsAndCanals | app/domains/pano/report.py:55-62 | roots and canals are 1..3 with roots <= canals; 3 roots exactly for the listed molars; 2 canals exactly for the listed premolars |
| PanoReport.ToothListsDisjoint | app/domains/pano/report.py:57-60 | no tooth number is in both the molar list and the premolar list, so that order of the tests does not matter |
| PanoReport.Urgency | app/domains/pano/report.py:128-135 | urgency is low, medium or urgent; low exactly for severity low, urgent exactly for severity high, and medium for everything else |
| PanoReport.FormatProblem | app/domains/pano/report.py:114-123 | a formatted problem keeps the type and bounding box of the raw problem, and its urgency is that of its severity |
| PanoReport.FormatDefaults | app/domains/pano/report.py:116-122 | a missing severity reads as low with urgency low; a missing confidence reads as 1.0; severity high gives urgency urgent |
| PanoReport.Formatted | app/domains/pano/report.py:101-125 | one formatted problem per raw problem, in order |
| PanoReport.FormatProblems | app/domains/pano/report.py:111-125 | the loop returns exactly the formatted problems |
| PanoReport.Entry | app/domains/pano/report.py:32-96 | building a tooth's entry raises exactly when its raw number is None |
| PanoReport.CollectFails | app/domains/pano/report.py:32-98 | a loop that stops at the first exception fails exactly when some step raises |
| PanoReport.CollectValues | app/domains/pano/report.py:32-98 | when no step raises, the list holds each step's value in order |
| PanoReport.CollectErrorSticks | app/domains/pano/report.py:32-98 | once a step raises, later steps change nothing |
| PanoReport.CollectStep | app/domains/pano/report.py:96 | after a clean prefix, a raising step is the whole loop's error, and a value is appended to the list |
| PanoReport.Entries | app/domains/pano/report.py:32 | one entry attempt per tooth, in order |
| PanoReport.TeethList | app/domains/pano/report.py:10-98 | a built teeth list has one entry per tooth |
| PanoReport.TeethListFails | app/domains/pano/report.py:34-35 | `build_teeth_list` raises exactly when some tooth's raw number is None |
| PanoReport.TeethListEntries | app/domains/pano/report.py:32-98 | entry i of a built list is the entry of tooth i |
| PanoReport.EntryFacts | app/domains/pano/report.py:32-96 | an entry's number is its cleaned raw number; roots and canals follow that number; the category is that of the tooth's own problems, which are formatted in order; `Endo` is set exactly when a problem is root_canal; a tooth with a crown is never Healthy; the detection id is kept |
| PanoReport.CrownIsNotHealthy | app/domains/pano/report.py:45 | a tooth whose problems include crown is Treated or Unhealthy |
| PanoReport.BuildEntry | app/domains/pano/report.py:33-94 | the loop body builds the entry `Entry` states |
| PanoReport.NextEntry | app/domains/pano/report.py:32-96 | one iteration extends the list, or ends the loop with the error of the whole list |
| PanoReport.BuildTeethList | app/domains/pano/report.py:10-98 | the loop returns exactly `TeethList` |
| PanoReport.CountCaries | app/domains/pano/report.py:162 | no more teeth have an active caries than there are teeth |
| PanoReport.CategoriesPartition | app/domains/pano/report.py:150-152 | every tooth is counted in exactly one of healthy, unhealthy and treated |
| PanoReport.StatisticsFacts | app/domains/pano/report.py:138-174 | healthy, unhealthy and treated sum to `totalTeeth`, the number of teeth; `missing` is 32 minus that and is negative exactly above 32 teeth; active caries are at most the teeth; attention is required exactly when a tooth is unhealthy or the summary requires it |
| PanoReport.ReportMetadata | app/domains/pano/report.py:218-243 | the metadata carries the report id, type `pano` and the time, and the given clinic or else the demo clinic |
| PanoReport.ModelNames | app/domains/pano/report.py:208 | the list holds every detection model's name in order, and fails with `KeyError('name')` exactly when some entry has no name |
| PanoReport.BuildAiAnalysisInfo | app/domains/pano/report.py:197-215 | the section names the segmentation path or `unknown`, every detection model's name in order, the analysis time, zero processing time and confidence and version `2.1.0-enriched`; it fails exactly when a detection entry has no name |
| PanoReport.BuildCompleteReport | app/domains/pano/report.py:246-292 | a report is built exactly when the teeth list and the AI-analysis section both can be, a teeth-list error coming first; a built report carries its report id, type `pano`, the patient information untouched, one tooth per segmented tooth and the AI-analysis section of the configurations; missing `teeth_data` counts as none |
| PanoReport.Assemble | app/domains/pano/report.py:281-290 | the report holds the patient, the teeth list itself, statistics over that list, the given AI-analysis section and the metadata of the report id |
| PanoReport.AnalyzerNumberInReport | app/domains/pano/report.py:34-35 | a tooth the segmentation model calls `d<n>` or `u<n>` gets tooth number n in the report |
| CbctAnalyzer.MinOf | app/domains/cbct/analyzer.py:127 | the minimum is one of the values and no value is below it |
| CbctAnalyzer.ShouldDownsample | app/domains/cbct/analyzer.py:126-137 | a header without zooms is an error; otherwise resampling happens exactly when one of the first three voxel sizes is under 1 mm and full resolution is not forced |
| CbctAnalyzer.ForceFullResAnyCase | app/domains/cbct/analyzer.py:135 | the override is read without regard to case and is off when the variable is unset |
| CbctAnalyzer.Generated | app/domains/cbct/analyzer.py:210-216 | only `.nii.gz` files are collected, at most one per walked file, and none are collected exactly when no walked name has that suffix |
| CbctAnalyzer.CollectGenerated | app/domains/cbct/analyzer.py:210-216 | the loop over the walk collects exactly the specified output files |
| CbctAnalyzer.WithTooth | app/domains/cbct/analyzer.py:242 | the filter keeps only output files whose path contains `tooth`, and is empty exactly when none does |
| CbctAnalyzer.ToothFiles | app/domains/cbct/analyzer.py:242-246 | the files read are tooth files when there are any and all output files otherwise; the list is empty only when there is no output at all |
| CbctAnalyzer.SearchTooth | app/domains/cbct/analyzer.py:254 | the search finds the leftmost `tooth_<digit>` match, and it reports none only when no position matches |
| CbctAnalyzer.SearchFirst | app/domains/cbct/analyzer.py:254 | the first matching position is the one the search returns |
| CbctAnalyzer.LabelId | app/domains/cbct/analyzer.py:251-262 | a label is never negative, and a file without `tooth_<n>` gets a hash-derived label between 1 and 255 |
| CbctAnalyzer.LabelOfToothFile | app/domains/cbct/analyzer.py:254-256 | a file named `tooth_<n>` after a digit-free directory part gets label n, whatever the hash |
| CbctAnalyzer.Stored | app/domains/cbct/analyzer.py:234-266 | a label written into the `uint8` mask lands in 0..255 |
| CbctAnalyzer.Painted | app/domains/cbct/analyzer.py:234-266 | the mask after any number of files has the volume's size |
| CbctAnalyzer.LastWriter | app/domains/cbct/analyzer.py:248-266 | the file that wins a voxel is the last one covering it; when none is reported, no file covers it |
| CbctAnalyzer.LastWriterWins | app/domains/cbct/analyzer.py:248-266 | every voxel of the merged mask holds the stored label of the last file covering it, and 0 when no file covers it |
| CbctAnalyzer.PaintedRange | app/domains/cbct/analyzer.py:234-266 | every voxel of the merged mask lies in 0..255 |
| CbctAnalyzer.Paint | app/domains/cbct/analyzer.py:265-266 | painting one file overwrites exactly the voxels where its data is positive and leaves every other voxel unchanged |
| CbctAnalyzer.MergeMasks | app/domains/cbct/analyzer.py:234-266 | the in-place merge over a fresh zero mask gives exactly the specified merged mask |
| CbctAnalyzer.Coord | app/domains/cbct/analyzer.py:297-301 | each coordinate of a C-order voxel index lies within its axis |
| CbctAnalyzer.CoordBound | app/domains/cbct/analyzer.py:301 | the slowest coordinate of a voxel index is below the first dimension |
| CbctAnalyzer.Extent | app/domains/cbct/analyzer.py:297-314 | the span along one axis exists exactly when the label occurs, lies within the axis, and covers every voxel holding the label |
| CbctAnalyzer.BboxFacts | app/domains/cbct/analyzer.py:295-316 | an absent label gives the all-zero box; a present one gives a non-empty box clamped to the volume that contains every voxel holding the label, in the source's (x, y, z) order |
| CbctAnalyzer.UniqueLabels | app/domains/cbct/analyzer.py:273-274 | the labels are exactly the non-zero values of the mask, strictly ascending |
| CbctAnalyzer.SegmentsFacts | app/domains/cbct/analyzer.py:273-291 | there is one segment per non-zero label, in ascending order, each with its label, id `tooth_<label>`, its bounding box and confidence 1.0, and no two share an id |
| CbctAnalyzer.ExtractSegments | app/domains/cbct/analyzer.py:273-291 | the loop over the labels builds exactly the specified segments |
| CbctAnalyzer.Layers | app/domains/cbct/analyzer.py:248-265 | one mask layer is read per tooth file |
| CbctAnalyzer.RunTotalSegmentator | app/domains/cbct/analyzer.py:210-293 | a result's mask matches its shape; with no output file it is all zero, in the volume's shape, with no segments |
| CbctAnalyzer.Stage1Facts | app/domains/cbct/analyzer.py:233-293 | after a successful merge each voxel holds the label of the last tooth file covering it, the labels read back are exactly the mask's non-zero values, and the segments are those of the merged mask |
| CbctAnalyzer.RunStage1 | app/domains/cbct/analyzer.py:210-293 | the method gives the same result as the specified stage |
| CbctAnalyzer.ToothFindings | app/domains/cbct/analyzer.py:339-357 | a tooth gets at most one finding per detector, each naming that tooth, with severity `high` exactly when the confidence is above 0.8 and `moderate` otherwise |
| CbctAnalyzer.FindingsAboveThreshold | app/domains/cbct/analyzer.py:339-357 | every finding carries the detector's score, which is strictly above the threshold of a detector with that name |
| CbctAnalyzer.DetectProblems | app/domains/cbct/analyzer.py:318-361 | there are at most as many findings as teeth times detectors |
| CbctAnalyzer.SummaryOf | app/domains/cbct/analyzer.py:363-367 | the summary counts the findings and asks for attention exactly when there is one |
| CbctAnalyzer.AnalyzeCbctVolume | app/domains/cbct/analyzer.py:61-114 | the tooth count matches the segments and the summary's count matches the findings; a failure in stage 1 gives the empty structure with no summary and no dimensions; a success gives the segmented volume's shape and stage 1's segments |
| CbctReport.AiStatus | app/domains/cbct/report_template.py:34-40 | missing or empty results give `no_analysis`; otherwise the status is `success` exactly when there are teeth and `no_detections` exactly when there are none |
| CbctReport.SliceCountsFacts | app/domains/cbct/report_template.py:43-55 | the sagittal, coronal and axial counts are the first three dimensions, with 0 for each one the shape lacks and all zero without results |
| CbctReport.Matching | app/domains/cbct/report_template.py:61-64 | a finding matches a tooth exactly when its tooth id equals the tooth's detection id |
| CbctReport.ProblemsOfOrigins | app/domains/cbct/report_template.py:61-64 | a tooth's problems are its matching findings, in their original order |
| CbctReport.ProblemsOfMembers | app/domains/cbct/report_template.py:61-64 | a finding is among a tooth's problems exactly when it is a finding for that tooth |
| CbctReport.TeethOf | app/domains/cbct/report_template.py:58-73 | there is one entry per analysed tooth |
| CbctReport.BuildTeeth | app/domains/cbct/report_template.py:58-73 | the loop builds exactly the specified teeth array |
| CbctReport.TeethFacts | app/domains/cbct/report_template.py:58-73 | each entry carries its tooth's class, number and box, and its problems are exactly that tooth's findings |
| CbctReport.HealthPartition | app/domains/cbct/report_template.py:76-77 | every tooth is either healthy or unhealthy, and some tooth is unhealthy exactly when some tooth has a problem |
| CbctReport.ProblemKeys | app/domains/cbct/report_template.py:82 | each finding is counted under its problem, or `unknown` when it has none |
| CbctReport.SeverityKeys | app/domains/cbct/report_template.py:83 | each finding is counted under its severity, or `unknown` when it has none |
| CbctReport.Distributions | app/domains/cbct/report_template.py:79-85 | the loop builds exactly the specified problem and severity counts |
| CbctReport.DistributionFacts | app/domains/cbct/report_template.py:79-85 | each key counts its occurrences, a key is present exactly when it occurs, and each distribution sums to the number of findings |
| CbctReport.GenerateCbctReportTemplate | app/domains/cbct/report_template.py:10-142 | the method builds exactly the specified report |
| CbctReport.ReportFacts | app/domains/cbct/report_template.py:31-142 | without results the report has no teeth, `no_analysis` and zero slice counts; in every case the totals match the teeth, healthy plus unhealthy is the tooth count, attention is needed exactly when a tooth has a problem, the distributions each sum to the finding count, and the scan dimensions repeat the slice counts |
| CbctReport.AnalyzerInReport | app/domains/cbct/report_template.py:37-73 | the analyser's failure structure is reported as `no_detections` with zero slice counts, its shape becomes the slice counts, every analysed tooth gets an entry, and no entry has a box, because the analyser stores the box under another key |
| ModelManager.NormalType | app/services/model_manager.py:28-35 | a valid type is kept, `detection` becomes `pano_detection`, and every other type is refused |
| ModelManager.ActiveSlot | app/services/model_manager.py:136-140 | a model is activated under its own type when that type is valid, and under `pano_detection` otherwise |
| ModelManager.FmtAll | app/services/model_manager.py:66-85 | each detector configuration is listed through the same formatting, in order |
| ModelManager.LocalDefaults | app/services/model_manager.py:56-90 | every local default has a valid type, source `local_default` and id `local_<name>` |
| ModelManager.ShippedDefaults | app/services/model_manager.py:56-90 | with the configurations as shipped there are three defaults (the multiproblem detector and the two segmenters) and none of type `cbct_detection` |
| ModelManager.FirstOfType | app/services/model_manager.py:180-184 | the fallback is the first default of the requested type, and there is none exactly when no default has that type |
| ModelManager.MergeDefaultsFacts | app/services/model_manager.py:186-193 | a type is listed when Redis resolves it or a default has it; Redis wins, and otherwise the first default of the type fills it |
| ModelManager.DetectorPlan | app/services/model_manager.py:279-305 | each detector configuration is registered once, under the loop's type |
| ModelManager.SegmenterPlan | app/services/model_manager.py:289-315 | a segmenter configuration is registered under its own type |
| ModelManager.InitPlan | app/services/model_manager.py:278-316 | every registration made at start-up has a valid type |
| ModelManager.LastOfType | app/services/model_manager.py:278-316 | the registration that stays active for a type is the last one of that type |
| ModelManager.PlanActiveFacts | app/services/model_manager.py:278-316 | after start-up a type is active exactly when it was before or was registered; a registered type points at its last registration, and others keep their entry |
| ModelManager.PlanModelsStep | app/services/model_manager.py:280-285 | one more registration adds exactly its record under its id |
| ModelManager.PlanModelsKeys | app/services/model_manager.py:278-316 | the registry after start-up holds the old records and the new ids, and records under other ids are unchanged |
| ModelManager.PlanModelsLast | app/services/model_manager.py:278-316 | each new id holds the record of its last registration |
| ModelManager.PlanModelsFacts | app/services/model_manager.py:278-316 | the keys, the untouched records and the new records of the registry after start-up, together |
| ModelManager.Registry.ValidResolvesAll | app/services/model_manager.py:158-169 | in a valid state every active entry resolves to its model whenever Redis is there |
| ModelManager.Registry.Resolved | app/services/model_manager.py:158-169 | a type resolves exactly when Redis is there and its active id names a known record, which is then listed with source `redis` |
| ModelManager.Registry.RegisterModel | app/services/model_manager.py:21-54 | without Redis nothing changes and nothing is returned; an invalid type raises and changes nothing; otherwise exactly the new record is stored under the new id with the normalised type, and a valid registry stays valid |
| ModelManager.Registry.GetAllModels | app/services/model_manager.py:95-118 | with stored records the listing is exactly those records marked `redis`; with none, or without Redis, it is the local defaults |
| ModelManager.Registry.SetActiveModel | app/services/model_manager.py:120-148 | without Redis it returns false; an unknown id raises `Model <id> not found`; otherwise exactly the model's slot is set to the id; the records never change and validity is kept |
| ModelManager.Registry.ResolveActive | app/services/model_manager.py:155-171 | the loop over the active hash gives exactly the resolved types |
| ModelManager.Registry.GetActiveModel | app/services/model_manager.py:150-193 | a requested type gives its Redis model if resolved, else its first local default, else none; no type gives Redis merged with the missing defaults |
| ModelManager.Registry.DeleteModel | app/services/model_manager.py:203-240 | an unknown id, or no Redis, changes nothing and returns false; otherwise exactly that record is dropped, its type's active entry is dropped only when it named this model, and validity is kept |
| ModelManager.Registry.DeactivateModelType | app/services/model_manager.py:242-258 | with Redis exactly that type's entry is removed, whatever the type; the records never change and validity is kept |
| ModelManager.Registry.InitDefaultModels | app/services/model_manager.py:260-321 | only an empty registry with Redis is initialised, and then the records and active entries are those of registering and activating every default in order; when the new ids are distinct, a valid registry stays valid |
| Validators.Least | app/utils/file_upload/validators.py:38 | the chosen extension is in the set and precedes every other one |
| Validators.LeastExists | app/utils/file_upload/validators.py:38 | every non-empty set of strings has a least element |
| Validators.StrLessAsymmetric | app/utils/file_upload/validators.py:38 | no two strings each precede the other |
| Validators.Sorted | app/utils/file_upload/validators.py:38 | the list holds exactly the allowed extensions, once each, in strictly ascending order |
| Validators.CheckedExtension | app/utils/file_upload/validators.py:35 | the checked extension is empty or one dot followed by no other dot |
| Validators.ValidateFileRequest | app/utils/file_upload/validators.py:14-44 | a missing or unnamed file is refused with `No file provided`; it is accepted exactly when its lowered extension is allowed, and then the original and sanitised names are returned; any other extension is refused with the sorted list |
| Validators.ValidateIgnoresCase | app/utils/file_upload/validators.py:35 | two names equal up to case are accepted or refused alike |
| Validators.LastIndexOfPast | app/utils/file_upload/validators.py:35 | the last occurrence of a character is unaffected by a suffix that lacks it |
| Validators.LastIndexOfAbsent | app/utils/file_upload/validators.py:35 | a string without a character has no last occurrence of it |
| Validators.CompressedNiftiIndices | app/utils/file_upload/validators.py:35 | in a lowered name ending in `.nii.gz` the last dot is that of `.gz` and the last slash lies before the suffix |
| Validators.CompressedNiftiRefused | app/utils/file_upload/validators.py:35-41 | every `.nii.gz` name is checked as `.gz` and refused, although `.nii.gz` is an allowed medical extension |
| Validators.CheckedExtensionFixed | app/utils/file_upload/validators.py:35 | the corrected check agrees with the original on every name not ending in `.nii.gz` |
| Validators.ValidateFileRequestFixed | app/utils/file_upload/validators.py:14-44 | the corrected validator refuses missing files alike and accepts exactly the names whose corrected extension is allowed |
| Validators.FixedAcceptsCompressedNifti | app/utils/file_upload/validators.py:35-41 | the corrected validator accepts a plain `.nii.gz` name and returns the same result as the original on every other suffix |
| FullReport.Bbox | docs/generate_full_report.py:38-43 | the simulated box is 30 by 40; x grows by 20 per position and is shifted by 200 for quadrants 2 and 3; y is 200 in the lower jaw and 100 in the upper |
| FullReport.Confidence | docs/generate_full_report.py:75 | a draw in [0, 1) gives a tooth confidence in [0.95, 0.99) |
| FullReport.ProblemsFor | docs/generate_full_report.py:46-68 | every tooth but 13 consumes at least one random draw |
| FullReport.ProblemsForFacts | docs/generate_full_report.py:46-68 | tooth 13 always has exactly its caries record and draws nothing; any other tooth has a problem exactly when its draw is above 0.8, then calculus or bone loss by a second draw, and uses exactly the draws it reads |
| FullReport.ProblemRecords | docs/generate_full_report.py:49-68 | the caries record is medium, distal, 0.88; a random record is low, without location, 0.90; both carry the id `prob_<n>_1` |
| FullReport.ToothAt | docs/generate_full_report.py:33-77 | each tooth consumes at least one draw |
| FullReport.ToothAtFacts | docs/generate_full_report.py:33-77 | a tooth gets number ten times its quadrant plus its position, that number as its id, its position's type, its box, its problems, and a confidence from the draw after them |
| FullReport.Built | docs/generate_full_report.py:28-77 | the first k iterations add exactly k teeth |
| FullReport.BuiltStep | docs/generate_full_report.py:28-77 | one more iteration appends exactly the next tooth |
| FullReport.BuiltAt | docs/generate_full_report.py:28-77 | a tooth once appended stays where it is |
| FullReport.AppendTooth | docs/generate_full_report.py:33-77 | the loop body appends exactly the specified tooth and advances the draws by what it reads |
| FullReport.AppendNth | docs/generate_full_report.py:28-77 | the loop body taken at quadrant q and position i extends the first 8q+i-1 teeth by exactly one |
| FullReport.GenerateFullReport | docs/generate_full_report.py:5-102 | the nested loops build exactly the specified report |
| FullReport.FdiNumbering | docs/generate_full_report.py:8-33 | each of the 32 loop positions gives a permanent tooth number (quadrant 1..4, position 1..8), in strictly ascending order, and every permanent number is reached from exactly the position it encodes |
| FullReport.NthToothFacts | docs/generate_full_report.py:28-77 | the j-th tooth has its FDI number, id, type, box, problems and confidence |
| FullReport.TeethAt | docs/generate_full_report.py:28-77 | the j-th tooth of the report is the tooth built at that step |
| FullReport.ToothNumberAt | docs/generate_full_report.py:33 | the j-th tooth of the report carries the j-th FDI number |
| FullReport.ToothProblemsAt | docs/generate_full_report.py:46-68 | only the third tooth is 13 and it has the caries record; every other tooth has at most one problem, calculus or bone loss |
| FullReport.ToothConfidenceAt | docs/generate_full_report.py:75 | with draws in [0, 1) the j-th tooth's confidence is in [0.95, 0.99) |
| FullReport.FullReportTeeth | docs/generate_full_report.py:5-77 | the report has 32 teeth, each with the number, id, type and box of its loop position |
| FullReport.FullReportNumbering | docs/generate_full_report.py:8-33 | every reported number is a permanent FDI number and they strictly ascend |
| FullReport.FullReportCoversDentition | docs/generate_full_report.py:8-33 | every permanent FDI number appears in the report |
| FullReport.FullReportProblems | docs/generate_full_report.py:46-68 | tooth 13 carries the caries record and every other tooth carries at most one calculus or bone-loss record |
| FullReport.FullReportConfidence | docs/generate_full_report.py:75 | with draws in [0, 1) every tooth's confidence is in [0.95, 0.99) |
| FullReport.HealthPartition | docs/generate_full_report.py:91-92 | every tooth is counted as healthy or unhealthy, never both |
| FullReport.UnhealthyCounts | docs/generate_full_report.py:92 | a tooth with a problem makes the unhealthy count positive |
| FullReport.FullReportStatistics | docs/generate_full_report.py:89-94 | the fixed total of 32 matches healthy plus unhealthy, at least one tooth is unhealthy, and attention is required, whatever the draws |
| Builtins.Truncate | app/domains/pano/analyzer.py:543-546 | Python's `int` of a float rounds toward zero: down for a non-negative value, up for a negative one |
| Text.Lower | app/utils/file_upload/validators.py:35 | lowering keeps the length, maps each character by itself, and leaves no capital letter |
| Text.LowerIdempotent | app/utils/file_upload/validators.py:35 | lowering twice is lowering once |
| Text.SplitExt | app/utils/file_upload/validators.py:35 | the extension `os.path.splitext` splits off is empty or a dot followed by no dot or slash, and ends the path |
| Text.Pad4Value | docs/nifti_slicer.py:69 | the zero-padded slice index reads back as the index |

## Left out

- Reading and writing files: nibabel and pydicom loading, `os.walk`/`os.listdir`, existence checks and directory creation are inputs. Examples are a file's bytes, what `dcmread` returns and the volume `nib.load` gives.
- JPEG encoding with PIL and the writing of slice files: a written slice is its path. Exceptions from the encoder or the disk are not modelled. The disk slicers are assumed to write every path they compute.
- The Supabase client: the reply to each upload attempt is the oracle `reply`.
- The Redis client: it is the two maps of `ModelManager.Registry` plus the `available` flag. A Redis error is not modelled, neither re-raised nor swallowed.
- Logging, `print`, the scripts' `__main__` blocks and their argument parsing.
- Model inference: YOLO predictions, the debug image dumps and model loading (`load_models`, the `get_*_analyzer` singletons). The predictions are inputs of `PanoAnalyzer`.
- The TotalSegmentator subprocess and the resampling to 1.5 mm. The output directory's walk and the segmented volume's shape are inputs. The decision to resample is modelled (`CbctAnalyzer.ShouldDownsample`).
- The synthetic panoramic projection and the `pano_image` key of `analyze_cbct_volume`: `app/domains/pano/projection.py` is not part of this model.
- Floating point: voxels, scores, thresholds and statistics are exact reals. So rounding of float arithmetic is not modelled, and `std > 1` is stated as population variance above 1.
- Text.Lower: only ASCII letters are lowered; Python's `str.lower` also lowers other alphabets.
- CbctAnalyzer.LabelId: Python's `hash`, which varies between processes, is the parameter `hashOf`. The bare `except` that would give label 1 has no counterpart: the regular-expression search and `int` of a digit run cannot raise.
- CbctAnalyzer.Stored: models the wrap-around of older numpy when a label above 255 goes into the `uint8` mask. NumPy 2 raises an OverflowError there instead.
- CbctAnalyzer.DetectProblems: the mock score `random.random() > 0.8` giving 0.95 is the parameter `prob`. The volume crop, which does not affect any score, and the exception a detector can raise are left out.
- DicomVolume.ExtractMetadata: a `PixelSpacing` counts as a list only when the input says so (`ListOf`). Whether pydicom returns a multi-valued element as a Python list or tuple is the parser's business.
- ModelManager.Registry.RegisterModel: the `ValueError` message stops at its fixed prefix and omits the rendering of the set of valid types, which has no fixed order. `float(threshold)` on a non-number is not modelled. Validity is kept only for a new id that is fresh; `uuid4` values are assumed not to collide. `InitDefaultModels` likewise keeps validity only when its start-up ids are distinct.
- ModelManager.Registry.GetAllModels: the listing is stated up to order, because the order of the Redis hash is not modelled. JSON and byte decoding are identities.
- ModelManager.Registry.DeleteModel: the deletion of the model file from disk is left out. It cannot change the registry.
- ModelManager.LocalDefaults: the `except` path returning `[]`, taken when the configuration modules fail to import, is left out. The shipped configurations are the constants of `ModelManager.ShippedConfigs`.
- Timestamps and identifiers: `datetime.now()`, `uuid4` and `uuid1().time` are parameters of the reports and of the registry.
- Constant report fields: the panoramic report's scan section (`build_scan_info`) and the constant fields of each tooth entry (`gumHealth`, `note`, `Root`, `approved`) are not modelled. They hold only constants and timestamps.
- Text.IsDigit: only the ASCII digits 0-9 count. Python's `\d` and `str.isdigit` also accept other Unicode digits, so `Text.FirstDigitRun`, `PanoReport.CleanToothNum` and `CbctAnalyzer.SearchTooth` ignore those.
- Volume dimensions: a DICOM `pixel_array` is a 2-D grid and a NIfTI volume a 3-D grid by type. Multi-frame DICOM arrays and NIfTI files with more or fewer than three dimensions are not modelled.
- The Celery tasks and workflows, the HTTP routes and the config modules are outside this core. The config modules supply only the constants used here.

## Findings

| source | as written | input that shows it | evidently intended | confidence | as-written member | corrected member |
|---|---|---|---|---|---|---|
| app/utils/file_upload/validators.py:35-41 | the extension checked is `os.path.splitext(filename.lower())[1]`, which never holds more than one dot | `scan.nii.gz` uploaded against the medical extensions of `app/api/upload.py:30`: the extension checked is `.gz`, so the file is refused although `.nii.gz` is listed | a listed compound extension such as `.nii.gz` is accepted | not executed | Validators.CompressedNiftiRefused | Validators.FixedAcceptsCompressedNifti |
| app/domains/pano/analyzer.py:266-277 | the `startswith('d')` test comes before the `== 'de'` test, so the denture branch is dead | a prediction of class `de` becomes lower tooth "e" instead of a denture, although line 303 expects dentures among the segments | the class `de` is classified as a denture | not executed | PanoAnalyzer.DentureUnreachable | PanoAnalyzer.ClassifyFixed |
