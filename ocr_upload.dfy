/** The image upload page: a chosen file is checked for its type and size
    before it is previewed and can be scanned. Reading the file and the
    scan itself happen outside this model. */
module OcrUpload {
  import opened Base

  /** What the page sees of a chosen file: its MIME type and its size in
      bytes. */
  datatype FileInfo = FileInfo(mimeType: string, size: int)

  const TypeError := "Only JPG, PNG, HEIC images allowed."
  const SizeError := "File size must be below 5MB."

  /** The largest accepted size: 5 MiB, inclusive. */
  const MaxSize := 5 * 1024 * 1024

  /** The accepted MIME types, compared exactly. */
  predicate AllowedType(mimeType: string) {
    mimeType in ["image/jpeg", "image/png", "image/heic", "image/heif"]
  }

  /** A file the page keeps: an allowed type, no larger than `MaxSize`. */
  predicate Acceptable(f: FileInfo) {
    AllowedType(f.mimeType) && f.size <= MaxSize
  }

  /** The outcome of checking a chosen file. */
  datatype Verdict = NoFile | Rejected(message: string) | Accepted(file: FileInfo)

  /** The checks of `onFile` in their order: no file, then the type, then
      the size. A file that fails both checks gets only the type message. */
  function Check(chosen: Option<FileInfo>): (v: Verdict)
    ensures v.NoFile? <==> chosen.None?
    ensures v.Accepted? <==> chosen.Some? && Acceptable(chosen.value)
    ensures v.Accepted? ==> v.file == chosen.value
    ensures v == Rejected(TypeError) <==> chosen.Some? && !AllowedType(chosen.value.mimeType)
    ensures v == Rejected(SizeError) <==> chosen.Some? && AllowedType(chosen.value.mimeType) && chosen.value.size > MaxSize
  {
    match chosen
    case None => NoFile
    case Some(f) =>
      if !AllowedType(f.mimeType) then Rejected(TypeError)
      else if f.size > MaxSize then Rejected(SizeError)
      else Accepted(f)
  }

  /** The size limit is inclusive: an image of exactly 5 MiB is kept, one
      byte more is refused with the size message. */
  lemma SizeLimitInclusive(mimeType: string)
    requires AllowedType(mimeType)
    ensures Check(Some(FileInfo(mimeType, 5242880))).Accepted?
    ensures Check(Some(FileInfo(mimeType, 5242881))) == Rejected(SizeError)
  {
  }

  class OcrUploadComponent {
    /** The data URL of the preview, once read. */
    var preview: Option<string>
    var validated: bool
    var scanning: bool
    var scannedText: Option<string>
    var errorMsg: Option<string>
    /** The last accepted file; unset until one is accepted. */
    var file: Option<FileInfo>

    /** Only accepted files are ever kept, and nothing is validated
        without a preview. */
    predicate Valid()
      reads this
    {
      (file.Some? ==> Acceptable(file.value)) && (validated ==> preview.Some?)
    }

    constructor ()
      ensures Valid()
      ensures preview == None && !validated && !scanning && scannedText == None && errorMsg == None && file == None
    {
      preview := None;
      validated := false;
      scanning := false;
      scannedText := None;
      errorMsg := None;
      file := None;
    }

    /** `onFile`: clears the error, the preview, the validation and the
        scanned text, then checks the chosen file. A rejected file sets its
        message; an accepted one is kept, and reading its preview starts
        (see `PreviewLoaded`). A scan in progress is not cancelled. */
    method OnFile(chosen: Option<FileInfo>) returns (verdict: Verdict)
      requires Valid()
      modifies this`errorMsg, this`preview, this`validated, this`scannedText, this`file
      ensures Valid()
      ensures verdict == Check(chosen)
      ensures preview == None && !validated && scannedText == None
      ensures errorMsg == if verdict.Rejected? then Some(verdict.message) else None
      ensures file == if verdict.Accepted? then Some(verdict.file) else old(file)
      ensures verdict.Accepted? <==> chosen.Some? && Acceptable(chosen.value)
    {
      verdict := Check(chosen);
      errorMsg := None;
      preview := None;
      validated := false;
      scannedText := None;

      if chosen.None? {
        return;
      }
      var f := chosen.value;
      if !AllowedType(f.mimeType) {
        errorMsg := Some(TypeError);
        return;
      }
      if f.size > MaxSize {
        errorMsg := Some(SizeError);
        return;
      }
      file := Some(f);
    }

    /** The reader's `onload`: the preview is shown and the file counts as
        validated. */
    method PreviewLoaded(dataUrl: string)
      requires Valid()
      modifies this`preview, this`validated
      ensures Valid()
      ensures preview == Some(dataUrl) && validated
    {
      preview := Some(dataUrl);
      validated := true;
    }

    /** `scan`: nothing happens unless the file was validated; otherwise
        scanning starts and the error is cleared. */
    method Scan()
      requires Valid()
      modifies this`scanning, this`errorMsg
      ensures Valid()
      ensures !validated ==> scanning == old(scanning) && errorMsg == old(errorMsg)
      ensures validated ==> scanning && errorMsg == None
    {
      if !validated {
        return;
      }
      scanning := true;
      errorMsg := None;
    }

    /** `clearAll`: everything but the kept file is reset, so a scan cannot
        start again until a new preview is loaded. */
    method ClearAll()
      requires Valid()
      modifies this`preview, this`errorMsg, this`validated, this`scanning, this`scannedText
      ensures Valid()
      ensures preview == None && errorMsg == None && !validated && !scanning && scannedText == None
    {
      preview := None;
      errorMsg := None;
      validated := false;
      scanning := false;
      scannedText := None;
    }
  }
}
