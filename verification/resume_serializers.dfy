/** Upload validation and the reported file size of `ResumeUploadSerializer`. */
module ResumeSerializers {
  import opened Base
  import opened Strings
  import AiViews

  const ResumeExtensions: seq<string> := [".pdf", ".docx", ".doc"]

  /** 10 MiB. */
  const MaxResumeSize: nat := 10 * 1024 * 1024

  datatype UploadError = BadFileType | FileTooLarge

  function UploadErrorMessage(e: UploadError): string {
    match e
    case BadFileType => "File must be a PDF, DOC, or DOCX file."
    case FileTooLarge => "File size must be less than 10MB."
  }

  /** The lower-cased name ends in one of the accepted extensions. */
  predicate HasResumeExtension(name: string) {
    exists i :: 0 <= i < |ResumeExtensions| && EndsWith(Lower(name), ResumeExtensions[i])
  }

  /** `validate_file`: the extension is checked first, then the size; a file of exactly 10 MiB
      passes. An accepted file is returned unchanged. */
  function ValidateFile(name: string, size: nat): (r: Result<(string, nat), UploadError>)
    ensures r.Ok? <==> HasResumeExtension(name) && size <= MaxResumeSize
    ensures r.Ok? ==> r.value == (name, size)
    ensures !HasResumeExtension(name) ==> r == Err(BadFileType)
    ensures HasResumeExtension(name) && size > MaxResumeSize ==> r == Err(FileTooLarge)
  {
    var lower := Lower(name);
    if !(EndsWith(lower, ".pdf") || EndsWith(lower, ".docx") || EndsWith(lower, ".doc")) then
      assert !HasResumeExtension(name);
      Err(BadFileType)
    else
      assert EndsWith(lower, ResumeExtensions[0]) || EndsWith(lower, ResumeExtensions[1])
             || EndsWith(lower, ResumeExtensions[2]);
      if size > MaxResumeSize then Err(FileTooLarge)
      else Ok((name, size))
  }

  /** Every file the upload accepts has a parser: the suffix rule of the parse view recognises
      its name, so an accepted upload can never leave a parse stuck for want of a file type. */
  lemma AcceptedUploadsAreParseable(name: string, size: nat)
    requires ValidateFile(name, size).Ok?
    ensures AiViews.FileTypeOf(name).Some?
  {
  }

  /** The size boundary: 10 MiB passes and one byte more fails, for any accepted name. */
  lemma SizeBoundary(name: string)
    requires HasResumeExtension(name)
    ensures ValidateFile(name, MaxResumeSize).Ok?
    ensures ValidateFile(name, MaxResumeSize + 1) == Err(FileTooLarge)
  {
  }

  /** `get_file_size`: None without a file, or when the storage raises on the size lookup. */
  function FileSize(file: Option<Result<nat, string>>): (r: Option<nat>)
    ensures r.Some? <==> file.Some? && file.value.Ok?
    ensures r.Some? ==> r.value == file.value.value
  {
    match file
    case None => None
    case Some(Err(_)) => None
    case Some(Ok(n)) => Some(n)
  }
}
