/** `validate_file_request`: the checks an upload passes before it is saved.
    werkzeug's `secure_filename` is the parameter `secure`. */
module Validators {
  import opened Wrappers
  import opened Text

  /** A `FileStorage`; it is true exactly when its filename is non-empty. */
  datatype Upload = Upload(filename: Option<string>)

  predicate Provided(file: Option<Upload>) {
    file.Some? && file.value.filename.Some? && file.value.filename.value != ""
  }

  const NoFileError := "No file provided"
  const NotAllowedPrefix := "File type not allowed. Allowed extensions: "

  /** The extensions the medical and image upload routes allow. */
  const MedicalExtensions: set<string> := {".nii", ".nii.gz", ".dcm", ".dicom", ".ima"}
  const ImageExtensions: set<string> := {".jpg", ".jpeg", ".png", ".tiff", ".tif", ".bmp"}

  // ---------------------------------------------------------------- sorted(allowed_extensions)

  lemma StrLessAsymmetric()
    ensures forall a, b :: !(StrLess(a, b) && StrLess(b, a))
  {
    forall a, b | StrLess(a, b) && StrLess(b, a) ensures false {
      StrLessTransitive(a, b, a);
      StrLessIrreflexive(a);
    }
  }

  predicate IsLeast(m: string, s: set<string>) {
    m in s && forall y | y in s :: m == y || StrLess(m, y)
  }

  lemma {:induction false} LeastExists(s: set<string>)
    requires s != {}
    ensures exists m :: IsLeast(m, s)
    decreases |s|
  {
    var x :| x in s;
    if s == {x} {
      assert IsLeast(x, s);
    } else {
      LeastExists(s - {x});
      var m :| IsLeast(m, s - {x});
      assert m in s && m != x;
      if StrLess(x, m) {
        forall y | y in s ensures x == y || StrLess(x, y) {
          if y != x && y != m {
            assert y in s - {x};
            StrLessTransitive(x, m, y);
          }
        }
        assert IsLeast(x, s);
      } else {
        StrLessTotal(x, m);
        forall y | y in s ensures m == y || StrLess(m, y) {
          if y != x {
            assert y in s - {x};
          }
        }
        assert IsLeast(m, s);
      }
    }
  }

  /** The smallest string of a non-empty set. */
  function Least(s: set<string>): (m: string)
    requires s != {}
    ensures IsLeast(m, s)
  {
    LeastExists(s);
    StrLessAsymmetric();
    var m :| IsLeast(m, s);
    m
  }

  /** `sorted(s)`. */
  function Sorted(s: set<string>): (r: seq<string>)
    ensures |r| == |s|
    ensures forall x :: x in r <==> x in s
    ensures forall a, b | 0 <= a < b < |r| :: StrLess(r[a], r[b])
    decreases |s|
  {
    if s == {} then []
    else
      var m := Least(s);
      var rest := Sorted(s - {m});
      assert forall b | 0 <= b < |rest| :: rest[b] in s - {m};
      [m] + rest
  }

  // ---------------------------------------------------------------- the validator

  /** The filename as given, and as `secure_filename` rewrites it. */
  datatype Accepted = Accepted(original: string, sanitized: string)

  /** The extension that is checked: `os.path.splitext(filename.lower())[1]`. */
  function CheckedExtension(filename: string): (ext: string)
    ensures ext == [] || ext[0] == '.'
    ensures forall i | 1 <= i < |ext| :: ext[i] != '.'
  {
    SplitExt(Lower(filename))
  }

  function NotAllowed(allowed: set<string>): string {
    NotAllowedPrefix + JoinWith(Sorted(allowed), ", ")
  }

  function ValidateFileRequest(file: Option<Upload>, allowed: set<string>, secure: string -> string)
    : (r: Result<Accepted>)
    ensures r == Err(NoFileError) <==> !Provided(file)
    ensures r.Ok? <==> Provided(file) && CheckedExtension(file.value.filename.value) in allowed
    ensures Provided(file) && CheckedExtension(file.value.filename.value) !in allowed ==> r == Err(NotAllowed(allowed))
    ensures r.Ok? ==> r.value == Accepted(file.value.filename.value, secure(file.value.filename.value))
  {
    if !Provided(file) then Err(NoFileError)
    else
      var filename := file.value.filename.value;
      if CheckedExtension(filename) !in allowed then
        assert NotAllowed(allowed)[..|NotAllowedPrefix|] == NotAllowedPrefix;
        Err(NotAllowed(allowed))
      else Ok(Accepted(filename, secure(filename)))
  }

  /** The check ignores case: two names equal up to case are both accepted
      or both refused. */
  lemma ValidateIgnoresCase(f: string, g: string, allowed: set<string>, secure: string -> string)
    requires f != "" && g != "" && Lower(f) == Lower(g)
    ensures ValidateFileRequest(Some(Upload(Some(f))), allowed, secure).Ok?
            == ValidateFileRequest(Some(Upload(Some(g))), allowed, secure).Ok?
  {
  }

  // ---------------------------------------------------------------- compound extensions

  /** The last c of a + b is in a when b has none. */
  lemma {:induction false} LastIndexOfPast(a: string, b: string, c: char)
    requires forall i | 0 <= i < |b| :: b[i] != c
    ensures LastIndexOf(a + b, c) == LastIndexOf(a, c)
    decreases |b|
  {
    if |b| == 0 {
      assert a + b == a;
    } else {
      assert (a + b)[..|a + b| - 1] == a + b[..|b| - 1];
      LastIndexOfPast(a, b[..|b| - 1], c);
    }
  }

  lemma LastIndexOfAbsent(s: string, c: char)
    requires forall i | 0 <= i < |s| :: s[i] != c
    ensures LastIndexOf(s, c) == -1
  {
    LastIndexOfPast([], s, c);
    assert [] + s == s;
  }

  /** A lowered name ending in ".nii.gz": its last '.' is the one of ".gz",
      and its last '/' lies before the suffix. */
  lemma CompressedNiftiIndices(stem: string)
    ensures var lower := Lower(stem + ".nii.gz");
            && lower == Lower(stem) + ".nii.gz"
            && LastIndexOf(lower, '.') == |lower| - 3
            && LastIndexOf(lower, '/') == LastIndexOf(Lower(stem), '/') < |stem|
  {
    var l := Lower(stem);
    assert Lower(stem + ".nii.gz") == l + ".nii.gz";
    assert l + ".nii.gz" == (l + ".nii") + "." + "gz";
    LastIndexOfPast((l + ".nii") + ".", "gz", '.');
    LastIndexOfPast(l, ".nii.gz", '/');
  }

  /** `.nii.gz` is listed, but the checked extension never holds a second dot,
      so a compressed NIfTI file is refused. */
  lemma CompressedNiftiRefused(stem: string, secure: string -> string)
    ensures CheckedExtension(stem + ".nii.gz") == ".gz"
    ensures ValidateFileRequest(Some(Upload(Some(stem + ".nii.gz"))), MedicalExtensions, secure).Err?
  {
    CompressedNiftiIndices(stem);
    var lower := Lower(stem + ".nii.gz");
    assert lower[|lower| - 6] == 'n';
    assert HasNonDot(lower, LastIndexOf(lower, '/') + 1, |lower| - 3);
    assert lower[|lower| - 3..] == ".gz";
  }

  /** The checked extension with the compressed NIfTI suffix read whole. */
  function CheckedExtensionFixed(filename: string): (ext: string)
    ensures !EndsWith(Lower(filename), ".nii.gz") ==> ext == CheckedExtension(filename)
  {
    var lower := Lower(filename);
    if EndsWith(lower, ".nii.gz") && HasNonDot(lower, LastIndexOf(lower, '/') + 1, |lower| - 7) then ".nii.gz"
    else SplitExt(lower)
  }

  /** `validate_file_request` reading `.nii.gz` as one extension. */
  function ValidateFileRequestFixed(file: Option<Upload>, allowed: set<string>, secure: string -> string)
    : (r: Result<Accepted>)
    ensures r == Err(NoFileError) <==> !Provided(file)
    ensures r.Ok? <==> Provided(file) && CheckedExtensionFixed(file.value.filename.value) in allowed
    ensures r.Ok? ==> r.value == Accepted(file.value.filename.value, secure(file.value.filename.value))
  {
    if !Provided(file) then Err(NoFileError)
    else
      var filename := file.value.filename.value;
      if CheckedExtensionFixed(filename) !in allowed then
        assert NotAllowed(allowed)[..|NotAllowedPrefix|] == NotAllowedPrefix;
        Err(NotAllowed(allowed))
      else Ok(Accepted(filename, secure(filename)))
  }

  /** The corrected check accepts a compressed NIfTI file whose stem has no
      directory part and is not all dots, and agrees with the original on
      every name without that suffix. */
  lemma FixedAcceptsCompressedNifti(stem: string, name: string, allowed: set<string>, secure: string -> string)
    requires forall i | 0 <= i < |stem| :: stem[i] != '/'
    requires HasNonDot(stem, 0, |stem|)
    ensures CheckedExtensionFixed(stem + ".nii.gz") == ".nii.gz"
    ensures ValidateFileRequestFixed(Some(Upload(Some(stem + ".nii.gz"))), MedicalExtensions, secure).Ok?
    ensures !EndsWith(Lower(name), ".nii.gz") ==>
              ValidateFileRequestFixed(Some(Upload(Some(name))), allowed, secure)
              == ValidateFileRequest(Some(Upload(Some(name))), allowed, secure)
  {
    CompressedNiftiIndices(stem);
    var lower := Lower(stem + ".nii.gz");
    LastIndexOfAbsent(Lower(stem), '/');
    var i :| 0 <= i < |stem| && stem[i] != '.';
    assert lower[i] == LowerChar(stem[i]) != '.';
    assert HasNonDot(lower, 0, |lower| - 7);
    assert EndsWith(lower, ".nii.gz");
  }
}
