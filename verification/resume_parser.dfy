/** Resume parsing: text extraction by file type (the extractor libraries are oracles), then
    structured data from the AI reply when usable, or an empty fallback structure. */
module ResumeParser {
  import opened Base
  import opened Strings
  import opened Seqs
  import opened Json

  /** What an extractor library yields: the page texts or the message of what it raised. */
  datatype PdfPages = PdfPages(pages: seq<Option<string>>)

  /** Why parsing failed: the exception the source raises, with its message. */
  datatype ParseError = Unsupported(fileType: string) | ExtractionFailed(message: string) | NotADict

  /** The text of the primary PDF extractor: each page's text, or "" for a page without one. */
  function PagesText(pages: seq<Option<string>>): string {
    if |pages| == 0 then ""
    else PagesText(pages[..|pages| - 1]) + pages[|pages| - 1].GetOr("")
  }

  const PdfFailure: string := "Failed to extract text from PDF: "
  const DocxFailure: string := "Failed to extract text from DOCX: "

  /** `extract_text_from_pdf`: the primary extractor's text; if it raised, the secondary
      extractor's text; if that raised too, a failure naming the secondary error. */
  function ExtractPdf(primary: Result<PdfPages, string>, secondary: Result<string, string>): (r: Result<string, ParseError>)
    ensures r.Err? <==> primary.Err? && secondary.Err?
    ensures primary.Ok? ==> r == Ok(PagesText(primary.value.pages))
    ensures primary.Err? && secondary.Ok? ==> r == Ok(secondary.value)
    ensures r.Err? ==> r.error.ExtractionFailed? && StartsWith(r.error.message, PdfFailure)
  {
    match primary
    case Ok(p) => Ok(PagesText(p.pages))
    case Err(_) =>
      match secondary
      case Ok(text) => Ok(text)
      case Err(e) => Err(ExtractionFailed(PdfFailure + e))
  }

  /** `extract_text_from_docx`: each paragraph followed by a newline. */
  function ExtractDocx(paragraphs: Result<seq<string>, string>): (r: Result<string, ParseError>)
    ensures r.Err? <==> paragraphs.Err?
    ensures r.Err? ==> r.error == ExtractionFailed(DocxFailure + paragraphs.error)
  {
    match paragraphs
    case Ok(ps) => Ok(Concat(Lines(ps)))
    case Err(e) => Err(ExtractionFailed(DocxFailure + e))
  }

  function Lines(ps: seq<string>): (r: seq<string>)
    ensures |r| == |ps|
    ensures forall i :: 0 <= i < |ps| ==> r[i] == ps[i] + "\n"
  {
    seq(|ps|, i requires 0 <= i < |ps| => ps[i] + "\n")
  }

  /** The extractor a file type selects, compared case-insensitively. */
  datatype Extractor = PdfExtractor | DocxExtractor

  function ExtractorFor(fileType: string): (r: Option<Extractor>)
    ensures r == Some(PdfExtractor) <==> Lower(fileType) == "pdf"
    ensures r == Some(DocxExtractor) <==> Lower(fileType) == "docx" || Lower(fileType) == "doc"
    ensures r.None? <==> Lower(fileType) !in {"pdf", "docx", "doc"}
  {
    var t := Lower(fileType);
    if t == "pdf" then Some(PdfExtractor)
    else if t == "docx" || t == "doc" then Some(DocxExtractor)
    else None
  }

  datatype ParsedResume = ParsedResume(rawText: string, structuredData: Value)

  /** The fields of the fallback structure. */
  const FallbackKeys: set<string> := {"name", "email", "phone", "location", "summary", "experience",
                                      "education", "skills", "certifications"}

  /** The structure used without a usable AI reply: empty fields and the first 500 characters of
      the text as summary. */
  function FallbackData(rawText: string): (r: Value)
    ensures r.Obj? && r.fields.Keys == FallbackKeys
    ensures r.fields["summary"] == Str(Take(rawText, 500))
    ensures forall k :: k in r.fields && k != "summary" ==> !PyTruthy(r.fields[k])
  {
    Obj(map["name" := Str(""), "email" := Str(""), "phone" := Str(""), "location" := Str(""),
            "summary" := Str(if |rawText| > 500 then rawText[..500] else rawText),
            "experience" := Arr([]), "education" := Arr([]), "skills" := Arr([]), "certifications" := Arr([])])
  }

  /** Whether the JSON generator's reply is used as the structured data: it must not carry
      `status` 'error'. A reply that is not a dict raises on `.get`. */
  function AcceptReply(reply: Value): Result<bool, ParseError> {
    if !reply.Obj? then Err(NotADict) else Ok(Get(reply, "status") != Str("error"))
  }

  /** `parse_resume_file`. The extractors' outcomes are inputs; `reply` is what the JSON generator
      returns when the client is configured. */
  function ParseResumeFile(fileType: string, primary: Result<PdfPages, string>, secondary: Result<string, string>,
                           paragraphs: Result<seq<string>, string>, configured: bool, reply: Value): (r: Result<ParsedResume, ParseError>)
    ensures ExtractorFor(fileType).None? ==> r == Err(Unsupported(fileType))
    ensures r.Ok? ==> ExtractorFor(fileType).Some?
  {
    var raw :=
      match ExtractorFor(fileType)
      case None => Err(Unsupported(fileType))
      case Some(PdfExtractor) => ExtractPdf(primary, secondary)
      case Some(DocxExtractor) => ExtractDocx(paragraphs);
    if raw.Err? then Err(raw.error)
    else if !configured then Ok(ParsedResume(raw.value, FallbackData(raw.value)))
    else
      match AcceptReply(reply)
      case Err(e) => Err(e)
      case Ok(accepted) =>
        Ok(ParsedResume(raw.value, if accepted then reply else FallbackData(raw.value)))
  }

  /** The AI structure is used exactly when the client is configured and the reply is a dict
      whose status is not 'error'; the extracted text is returned unchanged on both paths. */
  lemma ParseUsesReplyIff(fileType: string, primary: Result<PdfPages, string>, secondary: Result<string, string>,
                          paragraphs: Result<seq<string>, string>, configured: bool, reply: Value, raw: string)
    requires ExtractorFor(fileType) == Some(PdfExtractor) ==> ExtractPdf(primary, secondary) == Ok(raw)
    requires ExtractorFor(fileType) == Some(DocxExtractor) ==> ExtractDocx(paragraphs) == Ok(raw)
    requires ExtractorFor(fileType).Some?
    requires !configured || reply.Obj?
    ensures var r := ParseResumeFile(fileType, primary, secondary, paragraphs, configured, reply);
            r.Ok? && r.value.rawText == raw
            && (r.value.structuredData == (if configured && Get(reply, "status") != Str("error") then reply
                                            else FallbackData(raw)))
  {
  }
}
