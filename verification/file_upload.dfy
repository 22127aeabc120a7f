/** The resume file picker: a file reaches the page only when its extension is accepted and it
    is not larger than the limit; drops are ignored while the picker is disabled. */
module FileUpload {
  import opened Base
  import opened Strings

  /** A picked file: its name and its size in bytes. */
  datatype File = File(name: string, size: nat)

  /** Why a file was refused, checked in this order. */
  datatype Rejection = InvalidType | TooLarge

  const DefaultAcceptedTypes: seq<string> := [".pdf", ".doc", ".docx"]

  /** Ten megabytes. */
  const DefaultMaxSize: nat := 10 * 1024 * 1024

  /** The picker's state: the selected file and the upload progress shown for it. */
  datatype Picker = Picker(selected: Option<File>, progress: nat)

  /** The last piece of `s` split at `sep` (`s.split(sep).pop()`). */
  function LastPiece(s: string, sep: char): (r: string)
    ensures sep !in r
  {
    var parts := Split(s, sep);
    parts[|parts| - 1]
  }

  /** The extension tested: "." followed by the lower-cased text after the last dot; a name
      without a dot is taken whole. */
  function Extension(name: string): (r: string)
    ensures |r| >= 1 && r[0] == '.' && '.' !in r[1..]
  {
    var last := LastPiece(name, '.');
    assert forall i :: 0 <= i < |last| ==> Lower(last)[i] == LowerChar(last[i]);
    "." + Lower(last)
  }

  /** The pieces after the last separator: splitting `a + sep + y` ends with `y` when `y` has no
      separator. */
  lemma {:induction false} SplitEndsWith(a: string, y: string, sep: char)
    requires sep !in y
    ensures |Split(a + [sep] + y, sep)| >= 2
    ensures Split(a + [sep] + y, sep)[|Split(a + [sep] + y, sep)| - 1] == y
  {
    var s := a + [sep] + y;
    if |a| == 0 {
      assert s == [] + [sep] + y;
      SplitAtSeparator([], y, sep);
      SplitPrefix(y, "", sep);
      assert y + "" == y;
    } else {
      SplitEndsWith(a[1..], y, sep);
      assert s[1..] == a[1..] + [sep] + y;
      assert s[0] == a[0];
    }
  }

  /** A name with an extension is judged by that extension, whatever dots come before it. */
  lemma ExtensionOfDottedName(stem: string, ext: string)
    requires '.' !in ext
    ensures Extension(stem + "." + ext) == "." + Lower(ext)
  {
    SplitEndsWith(stem, ext, '.');
  }

  /** A name without any dot is judged as if it were all extension. */
  lemma ExtensionOfUndottedName(name: string)
    requires '.' !in name
    ensures Extension(name) == "." + Lower(name)
  {
    SplitPrefix(name, "", '.');
    assert name + "" == name;
  }

  /** `validateFile`: the type check first, then the size check; a file of exactly the limit
      passes. */
  function ValidateFile(f: File, acceptedTypes: seq<string>, maxSize: nat): (r: Result<File, Rejection>)
    ensures r.Ok? <==> Extension(f.name) in acceptedTypes && f.size <= maxSize
    ensures r.Ok? ==> r.value == f
    ensures r == Err(InvalidType) <==> Extension(f.name) !in acceptedTypes
    ensures r == Err(TooLarge) <==> Extension(f.name) in acceptedTypes && f.size > maxSize
  {
    if Extension(f.name) !in acceptedTypes then Err(InvalidType)
    else if f.size > maxSize then Err(TooLarge)
    else Ok(f)
  }

  /** The outcome of offering a file: the new picker state and the file handed to the page, if
      any. */
  datatype Selection = Selection(picker: Picker, handed: Option<File>)

  /** `handleFileSelect`: a valid file becomes the selection with progress reset and is handed
      on; an invalid one changes nothing. */
  function HandleFileSelect(p: Picker, f: File, acceptedTypes: seq<string>, maxSize: nat): (r: Selection)
    ensures r.handed.Some? <==> ValidateFile(f, acceptedTypes, maxSize).Ok?
    ensures r.handed.Some? ==> r.handed == Some(f) && r.picker == Picker(Some(f), 0)
    ensures r.handed.None? ==> r.picker == p
  {
    if ValidateFile(f, acceptedTypes, maxSize).Ok? then Selection(Picker(Some(f), 0), Some(f)) else Selection(p, None)
  }

  /** `handleDrop`: ignored while disabled or when nothing was dropped; otherwise only the first
      dropped file is offered. */
  function HandleDrop(p: Picker, files: seq<File>, disabled: bool, acceptedTypes: seq<string>, maxSize: nat): (r: Selection)
    ensures disabled || |files| == 0 ==> r == Selection(p, None)
    ensures r.handed.Some? ==> !disabled && |files| > 0 && r.handed == Some(files[0])
    ensures !disabled && |files| > 0 ==> r == HandleFileSelect(p, files[0], acceptedTypes, maxSize)
  {
    if disabled || |files| == 0 then Selection(p, None)
    else HandleFileSelect(p, files[0], acceptedTypes, maxSize)
  }

  /** With the default settings a ten-megabyte PDF passes and one byte more is refused. */
  lemma SizeLimitIsInclusive(stem: string)
    ensures ValidateFile(File(stem + ".pdf", DefaultMaxSize), DefaultAcceptedTypes, DefaultMaxSize).Ok?
    ensures ValidateFile(File(stem + ".pdf", DefaultMaxSize + 1), DefaultAcceptedTypes, DefaultMaxSize) == Err(TooLarge)
  {
    ExtensionOfDottedName(stem, "pdf");
    assert stem + ".pdf" == stem + "." + "pdf";
    assert Lower("pdf") == "pdf";
    assert Extension(stem + ".pdf") == ".pdf";
    assert DefaultAcceptedTypes[0] == ".pdf";
  }
}
