/** The ZIP picker: a file is accepted only with a `.zip` name and a size
    of at most 50 MiB, and only an accepted file is passed on. */
module FileUpload {
  import opened Wrappers
  import opened Text

  /** What the picker knows of a chosen file. */
  datatype FileInfo = FileInfo(name: string, size: nat)

  /** `50 * 1024 * 1024` bytes. */
  const MaxZipBytes: nat := 52428800

  const NotZip := "Please upload a ZIP file"
  const TooLarge := "File size must be less than 50MB"

  /** The error a file gets, if any: the name is checked first, so an
      oversized file with another extension gets the extension error. */
  function ValidationError(f: FileInfo): (r: Option<string>)
    ensures r.None? <==> EndsWith(f.name, ".zip") && f.size <= MaxZipBytes
    ensures !EndsWith(f.name, ".zip") ==> r == Some(NotZip)
    ensures EndsWith(f.name, ".zip") && f.size > MaxZipBytes ==> r == Some(TooLarge)
  {
    if !EndsWith(f.name, ".zip") then Some(NotZip)
    else if f.size > 52428800 then Some(TooLarge)
    else None
  }

  /** The bound is inclusive: exactly 50 MiB passes, one byte more does
      not. */
  lemma SizeBoundInclusive(name: string)
    requires EndsWith(name, ".zip")
    ensures ValidationError(FileInfo(name, 52428800)).None?
    ensures ValidationError(FileInfo(name, 52428801)) == Some(TooLarge)
  {
  }

  /** The extension test is case-sensitive. */
  lemma UpperCaseExtensionRejected()
    ensures ValidationError(FileInfo("site.ZIP", 1)) == Some(NotZip)
  {
    assert "site.ZIP"[4..] != ".zip" by {
      assert "site.ZIP"[5] == 'Z';
    }
  }

  class FileUploadBox {
    var selectedFile: Option<FileInfo>
    var error: Option<string>
    /** The files passed to `onFileSelect`, in order. */
    var selected: seq<FileInfo>

    constructor ()
      ensures selectedFile.None? && error.None? && selected == []
    {
      selectedFile, error, selected := None, None, [];
    }

    /** `validateFile`: clears the error, then records the first failing
        check. */
    method ValidateFile(f: FileInfo) returns (ok: bool)
      modifies this`error
      ensures ok <==> ValidationError(f).None?
      ensures error == ValidationError(f)
    {
      error := None;
      if !EndsWith(f.name, ".zip") {
        error := Some(NotZip);
        return false;
      }
      if f.size > 50 * 1024 * 1024 {
        error := Some(TooLarge);
        return false;
      }
      return true;
    }

    /** `handleFile`: a valid file is selected and passed on; an invalid
        one only sets the error. */
    method HandleFile(f: FileInfo)
      modifies this`error, this`selectedFile, this`selected
      ensures error == ValidationError(f)
      ensures ValidationError(f).None? ==> selectedFile == Some(f) && selected == old(selected) + [f]
      ensures ValidationError(f).Some? ==> selectedFile == old(selectedFile) && selected == old(selected)
    {
      var ok := ValidateFile(f);
      if ok {
        selectedFile := Some(f);
        selected := selected + [f];
      }
    }

    /** `handleDrop` and `handleChange`: the first file of the list, if
        any, is handled. */
    method HandleDrop(files: seq<FileInfo>)
      modifies this`error, this`selectedFile, this`selected
      ensures files == [] ==> error == old(error) && selectedFile == old(selectedFile) && selected == old(selected)
      ensures files != [] ==> error == ValidationError(files[0])
      ensures files != [] && ValidationError(files[0]).None? ==>
        selectedFile == Some(files[0]) && selected == old(selected) + [files[0]]
      ensures files != [] && ValidationError(files[0]).Some? ==>
        selectedFile == old(selectedFile) && selected == old(selected)
      ensures forall f :: f in selected ==> f in old(selected) || ValidationError(f).None?
    {
      if files != [] {
        HandleFile(files[0]);
      }
    }

    /** `removeFile`. */
    method RemoveFile()
      modifies this`selectedFile, this`error
      ensures selectedFile.None? && error.None?
    {
      selectedFile := None;
      error := None;
    }
  }
}
