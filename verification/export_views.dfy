/** The pure rules of the export views: the cached WeasyPrint availability check and its error
    classification, the PDF write-error messages, the template context, download gating and the
    job-detail enrichment. The platform, the probe's outcome and the file system are inputs. */
module ExportViews {
  import opened Base
  import opened Strings
  import opened Seqs
  import opened Json

  /** `platform.system().lower()`, reduced to the cases the code distinguishes. */
  datatype Platform = Windows | Linux | Darwin | OtherPlatform

  /** What importing WeasyPrint and writing the test PDF did. */
  datatype Probe = ImportFails | WritesPdf | Raises(message: string)

  datatype ErrorType = ImportError | SystemDependencies(platform: Platform) | FontError | RuntimeError

  function ErrorTypeName(t: ErrorType): string {
    match t
    case ImportError => "import_error"
    case SystemDependencies(Windows) => "system_dependencies_windows"
    case SystemDependencies(Linux) => "system_dependencies_linux"
    case SystemDependencies(Darwin) => "system_dependencies_macos"
    case SystemDependencies(OtherPlatform) => "system_dependencies"
    case FontError => "font_error"
    case RuntimeError => "runtime_error"
  }

  /** The error message of each availability failure; `detail` is `str(e)`. */
  function AvailabilityMessage(t: ErrorType, detail: string): string {
    match t
    case ImportError => "WeasyPrint is not installed. Please install it using: pip install weasyprint"
    case SystemDependencies(Windows) =>
      "WeasyPrint system dependencies are missing. On Windows, you need to install GTK3 runtime libraries. "
      + "Please visit: https://github.com/tschoonj/GTK-for-Windows-Runtime-Environment-Installer "
      + "or use: pip install weasyprint[windows]"
    case SystemDependencies(Linux) =>
      "WeasyPrint system dependencies are missing. Please install system packages: "
      + "sudo apt-get install python3-cffi python3-brotli libpango-1.0-0 libpangoft2-1.0-0 "
      + "or: sudo yum install pango pango-devel cairo cairo-devel"
    case SystemDependencies(Darwin) =>
      "WeasyPrint system dependencies are missing. Please install using Homebrew: "
      + "brew install cairo pango gdk-pixbuf libffi"
    case SystemDependencies(OtherPlatform) =>
      "WeasyPrint system dependencies are missing (Cairo/Pango). Error: " + detail
      + ". Please refer to WeasyPrint installation documentation: "
      + "https://doc.courtbouillon.org/weasyprint/stable/first_steps.html#installation"
    case FontError =>
      "WeasyPrint font configuration issue. Error: " + detail + ". Please check your system font configuration."
    case RuntimeError =>
      "WeasyPrint PDF generation failed. Error: " + detail + ". Please check the server logs for more details."
  }

  /** A test-PDF failure mentions a graphics library. */
  predicate MentionsGraphics(lower: string) {
    Contains(lower, "cairo") || Contains(lower, "pango") || Contains(lower, "gobject")
  }

  predicate MentionsFont(lower: string) {
    Contains(lower, "font") || Contains(lower, "ttf")
  }

  /** The classification of a test-PDF failure, checked in order: graphics libraries (by
      platform), then fonts, else a generic runtime error. */
  function ClassifyRuntime(message: string, platform: Platform): (t: ErrorType)
    ensures t == SystemDependencies(platform) <==> MentionsGraphics(Lower(message))
    ensures t == FontError <==> !MentionsGraphics(Lower(message)) && MentionsFont(Lower(message))
    ensures t == RuntimeError <==> !MentionsGraphics(Lower(message)) && !MentionsFont(Lower(message))
  {
    var lower := Lower(message);
    if MentionsGraphics(lower) then SystemDependencies(platform)
    else if MentionsFont(lower) then FontError
    else RuntimeError
  }

  /** The module-level cache: `_weasyprint_available` and `_weasyprint_error`. */
  datatype Cache = Cache(available: Option<bool>, error: Option<string>)

  /** What `check_weasyprint_availability` returns. */
  datatype Availability = Availability(available: bool, error: Option<string>, errorType: Option<ErrorType>)

  /** `check_weasyprint_availability`: a cached verdict is returned without probing, and without
      its error type; otherwise the probe's outcome is classified and cached. */
  function CheckAvailability(cache: Cache, probe: Probe, platform: Platform): (r: (Availability, Cache))
    ensures cache.available.Some? ==> r.0 == Availability(cache.available.value, cache.error, None) && r.1 == cache
    ensures cache.available.None? ==> r.1 == Cache(Some(r.0.available), r.0.error)
    ensures cache.available.None? ==> (r.0.available <==> probe.WritesPdf?)
    ensures cache.available.None? ==> (r.0.errorType.Some? <==> !probe.WritesPdf?)
    ensures cache.available.None? && probe.ImportFails? ==> r.0.errorType == Some(ImportError)
    ensures cache.available.None? && probe.Raises? ==> r.0.errorType == Some(ClassifyRuntime(probe.message, platform))
  {
    if cache.available.Some? then (Availability(cache.available.value, cache.error, None), cache)
    else
      var a :=
        match probe
        case ImportFails => Availability(false, Some(AvailabilityMessage(ImportError, "")), Some(ImportError))
        case WritesPdf => Availability(true, None, None)
        case Raises(e) =>
          var t := ClassifyRuntime(e, platform);
          Availability(false, Some(AvailabilityMessage(t, e)), Some(t));
      (a, Cache(Some(a.available), a.error))
  }

  /** The process probes at most once: a second check, whatever the library would do by then,
      repeats the first verdict and message but has lost the error type. */
  lemma SecondCheckRepeatsFirst(probe1: Probe, probe2: Probe, platform: Platform)
    ensures var (first, cache) := CheckAvailability(Cache(None, None), probe1, platform);
            var (second, cache2) := CheckAvailability(cache, probe2, platform);
            second.available == first.available && second.error == first.error
            && second.errorType.None? && cache2 == cache
  {
  }

  /** The class of a failure while writing the export PDF, first match wins. */
  datatype PdfFailure = ImagesOrResources | CssFailure | FontFailure | GenericFailure

  function ClassifyPdfError(message: string): (c: PdfFailure)
    ensures c == ImagesOrResources <==> Contains(Lower(message), "image") || Contains(Lower(message), "url")
    ensures c == CssFailure <==> !(Contains(Lower(message), "image") || Contains(Lower(message), "url"))
                                 && (Contains(Lower(message), "css") || Contains(Lower(message), "stylesheet"))
    ensures c == FontFailure ==> Contains(Lower(message), "font")
  {
    var lower := Lower(message);
    if Contains(lower, "image") || Contains(lower, "url") then ImagesOrResources
    else if Contains(lower, "css") || Contains(lower, "stylesheet") then CssFailure
    else if Contains(lower, "font") then FontFailure
    else GenericFailure
  }

  /** The job's error message for a PDF write failure; `detail` is `str(pdf_error)`. */
  function PdfErrorMessage(message: string): string {
    match ClassifyPdfError(message)
    case ImagesOrResources =>
      "PDF generation failed while processing images or external resources. Error: " + message
      + ". This may be due to inaccessible image URLs or network issues."
    case CssFailure =>
      "PDF generation failed while processing CSS. Error: " + message
      + ". Please check the template CSS for compatibility with WeasyPrint."
    case FontFailure =>
      "PDF generation failed due to font issues. Error: " + message + ". Please check your system font configuration."
    case GenericFailure =>
      "PDF generation failed. Error: " + message + ". Please check the server logs for more details."
  }

  /** The component type a serialized component is filed under, when it has a truthy one. */
  function TypeKey(c: Value): Option<string> {
    match Get(c, "component_type")
    case Str(s) => if s != "" then Some(s) else None
    case _ => None
  }

  /** `components_by_type`: each type maps to the last component of that type. */
  function ByType(components: seq<Value>): (r: map<string, Value>)
    ensures forall t :: t in r <==> exists i :: 0 <= i < |components| && TypeKey(components[i]) == Some(t)
  {
    if |components| == 0 then map[]
    else
      var rest := ByType(components[..|components| - 1]);
      var c := components[|components| - 1];
      assert forall i :: 0 <= i < |components| - 1 ==> components[..|components| - 1][i] == components[i];
      match TypeKey(c)
      case Some(t) => rest[t := c]
      case None => rest
  }

  /** The last component of a type is the one kept: no later component has that type. */
  lemma {:induction false} ByTypeKeepsLast(components: seq<Value>, i: nat)
    requires i < |components| && TypeKey(components[i]).Some?
    requires forall j :: i < j < |components| ==> TypeKey(components[j]) != TypeKey(components[i])
    ensures ByType(components)[TypeKey(components[i]).value] == components[i]
    decreases |components|
  {
    if i < |components| - 1 {
      var init := components[..|components| - 1];
      assert init[i] == components[i];
      ByTypeKeepsLast(init, i);
    }
  }

  const SocialKeys: seq<string> := ["github", "linkedin", "website"]

  /** Copies one social link to the top level when the top-level value is falsy and the social
      one truthy. */
  function CopySocial(content: map<string, Value>, social: Value, key: string): map<string, Value> {
    var top := if key in content then content[key] else Undefined;
    if !PyTruthy(top) && PyTruthy(Get(social, key)) then content[key := Get(social, key)] else content
  }

  /** The top-level github, linkedin and website links are all truthy. */
  predicate TopLinksSet(content: Value) {
    PyTruthy(Get(content, "github")) && PyTruthy(Get(content, "linkedin")) && PyTruthy(Get(content, "website"))
  }

  /** The contact normalisation of `get_portfolio_context`. With a truthy `social` that is not a
      dict, `social.get` is reached, and raises, for the first top-level link that is falsy, which
      fails the export (None); when all three are set, `and` never evaluates it. */
  function FlattenSocial(content: Value): (r: Option<Value>)
    ensures !content.Obj? ==> r == Some(content)
    ensures r.Some? && content.Obj? ==> r.value.Obj? && r.value.fields.Keys >= content.fields.Keys
    ensures r.Some? && content.Obj? ==>
              forall k :: k in content.fields && (k !in SocialKeys || PyTruthy(content.fields[k]))
                ==> r.value.fields[k] == content.fields[k]
    ensures r.Some? && content.Obj? ==>
              forall k :: k in SocialKeys && !PyTruthy(Get(content, k)) && PyTruthy(Get(Get(content, "social"), k))
                ==> Get(r.value, k) == Get(Get(content, "social"), k)
    ensures r.None? <==> content.Obj? && PyTruthy(Get(content, "social")) && !Get(content, "social").Obj?
                         && !TopLinksSet(content)
    ensures content.Obj? && !Get(content, "social").Obj? && r.Some? ==> r == Some(content)
  {
    if !content.Obj? then Some(content)
    else
      var social := Get(content, "social");
      if !PyTruthy(social) then Some(content)
      else if !social.Obj? then
        if TopLinksSet(content) then Some(content) else None
      else
        Some(Obj(CopySocial(CopySocial(CopySocial(content.fields, social, "github"), social, "linkedin"), social, "website")))
  }

  /** The component slots of the template context; a missing component is None. */
  datatype Context = Context(header: Value, about: Value, skills: Value, projects: Value, blog: Value, contact: Value)

  function Slot(byType: map<string, Value>, t: string): Value {
    if t in byType then byType[t] else Null
  }

  /** `get_portfolio_context` without the serializer and the clock: the last component of each of
      the six types, with the contact's social links flattened when it has truthy content. */
  function PortfolioContext(components: seq<Value>): (r: Option<Context>)
    ensures r.Some? ==> r.value.header == Slot(ByType(components), "header")
                        && r.value.projects == Slot(ByType(components), "projects")
    ensures r.Some? ==> r.value.about == Slot(ByType(components), "about")
                        && r.value.skills == Slot(ByType(components), "skills")
                        && r.value.blog == Slot(ByType(components), "blog")
    ensures r.Some? && !PyTruthy(Get(Slot(ByType(components), "contact"), "content")) ==>
              r.value.contact == Slot(ByType(components), "contact")
    ensures var contact := Slot(ByType(components), "contact");
            r.None? <==> PyTruthy(contact) && PyTruthy(Get(contact, "content"))
                         && FlattenSocial(Get(contact, "content")).None?
    ensures var contact := Slot(ByType(components), "contact");
            r.Some? && PyTruthy(contact) && PyTruthy(Get(contact, "content")) ==>
              r.value.contact == Set(contact, "content", FlattenSocial(Get(contact, "content")).value)
  {
    var byType := ByType(components);
    var contact := Slot(byType, "contact");
    var flattened :=
      if PyTruthy(contact) && PyTruthy(Get(contact, "content")) then
        match FlattenSocial(Get(contact, "content"))
        case None => None
        case Some(c) => Some(Set(contact, "content", c))
      else Some(contact);
    match flattened
    case None => None
    case Some(c) =>
      Some(Context(Slot(byType, "header"), Slot(byType, "about"), Slot(byType, "skills"), Slot(byType, "projects"),
                   Slot(byType, "blog"), c))
  }

  datatype ExportKind = Pdf | Html

  datatype JobStatus = Pending | Processing | Completed | Failed

  datatype Job = Job(kind: ExportKind, status: JobStatus, filePath: string, errorMessage: string, portfolioTitle: string)

  datatype DownloadError = NotReady | FileNotFound

  /** The attachment's file name: the title with spaces replaced by '_' and a kind suffix. */
  function DownloadName(title: string, kind: ExportKind): string {
    ReplaceAll(title, " ", "_") + (if kind == Pdf then "_portfolio.pdf" else "_portfolio.zip")
  }

  /** `download_export`: 404 unless the job is completed with a file path that exists; otherwise
      the file name and content type. */
  function Download(job: Job, fileExists: bool): (r: Result<(string, string), DownloadError>)
    ensures r.Ok? <==> job.status == Completed && job.filePath != "" && fileExists
    ensures r.Err? ==> (r.error == NotReady <==> job.status != Completed || job.filePath == "")
    ensures r.Ok? ==> r.value.1 == (if job.kind == Pdf then "application/pdf" else "application/zip")
  {
    if job.status != Completed || job.filePath == "" then Err(NotReady)
    else if !fileExists then Err(FileNotFound)
    else Ok((DownloadName(job.portfolioTitle, job.kind), if job.kind == Pdf then "application/pdf" else "application/zip"))
  }

  /** The download name never contains a space and always ends with the kind's suffix. */
  lemma DownloadNameShape(title: string, kind: ExportKind)
    ensures ' ' !in DownloadName(title, kind)
    ensures EndsWith(DownloadName(title, kind), if kind == Pdf then "_portfolio.pdf" else "_portfolio.zip")
  {
    ReplaceSpaceRemovesSpaces(title);
    var suffix := if kind == Pdf then "_portfolio.pdf" else "_portfolio.zip";
    var name := DownloadName(title, kind);
    assert name[|name| - |suffix|..] == suffix;
  }

  lemma {:induction false} ReplaceSpaceRemovesSpaces(s: string)
    ensures ' ' !in ReplaceAll(s, " ", "_")
    ensures |ReplaceAll(s, " ", "_")| == |s|
    decreases |s|
  {
    if |s| >= 1 {
      ReplaceSpaceRemovesSpaces(s[1..]);
    }
  }

  /** The failure message of a PDF job mentions WeasyPrint or its dependencies. */
  predicate MentionsWeasyPrint(message: string) {
    var lower := Lower(message);
    Contains(lower, "weasyprint") || Contains(lower, "not installed") || Contains(lower, "system dependencies")
    || Contains(lower, "cairo") || Contains(lower, "pango")
  }

  /** A failed PDF job whose message looks like a WeasyPrint problem. */
  predicate WeasyPrintFailure(job: Job) {
    job.status == Failed && job.kind == Pdf && job.errorMessage != "" && MentionsWeasyPrint(job.errorMessage)
  }

  /** The check reports an unavailable library with a message. */
  predicate ReportsUnavailable(a: Availability) {
    !a.available && a.error.Some? && a.error.value != ""
  }

  /** The extra fields of `export_job_detail`: present only for a WeasyPrint failure while the check
      reports the library unavailable. The check may run (and fill the cache) on the way. */
  function JobDetailExtras(job: Job, cache: Cache, probe: Probe, platform: Platform): (r: (Option<(Option<ErrorType>, Platform)>, Cache))
    ensures r.0.Some? <==> WeasyPrintFailure(job) && ReportsUnavailable(CheckAvailability(cache, probe, platform).0)
    ensures r.0.Some? ==> r.0.value == (CheckAvailability(cache, probe, platform).0.errorType, platform)
    ensures !WeasyPrintFailure(job) ==> r.1 == cache
  {
    if job.status == Failed && job.kind == Pdf && job.errorMessage != "" && MentionsWeasyPrint(job.errorMessage) then
      var (a, cache') := CheckAvailability(cache, probe, platform);
      if !a.available && a.error.Some? && a.error.value != "" then (Some((a.errorType, platform)), cache')
      else (None, cache')
    else (None, cache)
  }

  /** After a failed PDF export has filled the cache, the job detail reports the instructions but
      no error type. */
  lemma JobDetailAfterExportHasNoErrorType(job: Job, cache: Cache, probe: Probe, platform: Platform)
    requires cache.available == Some(false) && cache.error.Some? && cache.error.value != ""
    requires WeasyPrintFailure(job)
    ensures JobDetailExtras(job, cache, probe, platform).0 == Some((None, platform))
  {
  }
}
