/** The AI endpoints' own logic: the resume-parsing status machine with its file-type detection
    and skill storage, the required-field checks, and the content collected for SEO analysis.
    The database is a map from resume id to upload record. */
module AiViews {
  import opened Base
  import opened Strings
  import opened Seqs
  import opened Json
  import ResumeParser
  import SeoAnalyzer

  datatype Status = Pending | Processing | Completed | Failed

  /** A stored skill row. */
  datatype SkillRow = SkillRow(name: Value, category: Value, confidence: Value)

  /** The parsed data stored for an upload. */
  datatype ResumeData = ResumeData(rawText: string, structuredData: Value, skills: seq<SkillRow>)

  datatype Upload = Upload(owner: nat, fileName: string, status: Status, errorMessage: string,
                           data: Option<ResumeData>)

  datatype Response = Response(code: nat, body: Value)

  /** An exception that escapes the view: the framework answers with its own 500 page, whose body
      is not modelled. */
  const ServerError := Response(500, Undefined)

  /** An exception raised inside the parsing block; `str(e)` of the last three is supplied by `show`.
      `DuplicateName` is the integrity error of a second skill row with the same name for one resume. */
  datatype Failure = ParserFailed(error: ResumeParser.ParseError) | MissingKey(key: string) | NotSubscriptable
                   | DuplicateName(name: Value)

  /** `str(e)`: the parser's messages as raised, `'key'` for a `KeyError`. */
  function FailureText(f: Failure, show: Failure -> string): string {
    match f
    case ParserFailed(e) =>
      if e.ExtractionFailed? then e.message
      else if e.Unsupported? then "Unsupported file type: " + e.fileType
      else show(f)
    case MissingKey(k) => "'" + k + "'"
    case NotSubscriptable => show(f)
    case DuplicateName(_) => show(f)
  }

  function ErrorBody(message: string): Value {
    Obj(map["error" := Str(message)])
  }

  /** The file type from the lower-cased file name's suffix; '.doc' files are parsed as 'docx'. */
  function FileTypeOf(fileName: string): (r: Option<string>)
    ensures r == Some("pdf") <==> EndsWith(Lower(fileName), ".pdf")
    ensures r == Some("docx") <==> !EndsWith(Lower(fileName), ".pdf")
                                   && (EndsWith(Lower(fileName), ".docx") || EndsWith(Lower(fileName), ".doc"))
    ensures r.Some? ==> ResumeParser.ExtractorFor(r.value).Some?
  {
    var name := Lower(fileName);
    assert Lower("pdf") == "pdf" && Lower("docx") == "docx";
    if EndsWith(name, ".pdf") then Some("pdf")
    else if EndsWith(name, ".docx") || EndsWith(name, ".doc") then Some("docx")
    else None
  }

  function RowOf(item: Value): SkillRow {
    SkillRow(Get(item, "name"), GetOr(item, "category", Str("technical")), GetOr(item, "confidence", Real(0.5)))
  }

  /** Why creating the row for `item` after `rows` raises, if it does: a non-dict entry is not
      subscriptable, a dict without `name` raises `KeyError`, and a name already stored for this
      resume breaks the uniqueness of `(resume_data, name)`. */
  function StoreFailure(rows: seq<SkillRow>, item: Value): Option<Failure> {
    if !item.Obj? then Some(NotSubscriptable)
    else if "name" !in item.fields then Some(MissingKey("name"))
    else if exists k :: 0 <= k < |rows| && rows[k].name == item.fields["name"] then Some(DuplicateName(item.fields["name"]))
    else None
  }

  predicate DistinctNames(rows: seq<SkillRow>) {
    forall i, j :: 0 <= i < j < |rows| ==> rows[i].name != rows[j].name
  }

  /** Every entry is a dict with a `name`, and no two names are equal. */
  predicate Storable(items: seq<Value>) {
    (forall i :: 0 <= i < |items| ==> items[i].Obj? && "name" in items[i].fields)
    && (forall i, j :: 0 <= i < j < |items| ==> Get(items[i], "name") != Get(items[j], "name"))
  }

  /** The skill loop: rows are created one at a time and the first entry that raises stops it,
      leaving the rows created before it in place. Returns those rows and the failure, if any. */
  function RowsOf(items: seq<Value>): (r: (seq<SkillRow>, Option<Failure>))
    ensures |r.0| <= |items|
    ensures forall i :: 0 <= i < |r.0| ==> r.0[i] == RowOf(items[i]) && StoreFailure(r.0[..i], items[i]).None?
    ensures r.1.None? ==> |r.0| == |items|
    ensures r.1.Some? ==> |r.0| < |items| && r.1 == StoreFailure(r.0, items[|r.0|])
    ensures DistinctNames(r.0)
    ensures r.1.None? <==> Storable(items)
  {
    if |items| == 0 then ([], None)
    else
      var init := items[..|items| - 1];
      var last := items[|items| - 1];
      var (rows, failure) := RowsOf(init);
      if failure.Some? then
        StorablePrefix(items);
        (rows, failure)
      else
        StorableSnoc(items, rows);
        match StoreFailure(rows, last)
        case Some(f) => (rows, Some(f))
        case None =>
          StoredSnoc(items, rows);
          (rows + [RowOf(last)], None)
  }

  /** Storing the last entry after the rows of the earlier ones keeps every row's history and the
      names distinct. */
  lemma StoredSnoc(items: seq<Value>, rows: seq<SkillRow>)
    requires |items| > 0 && |rows| == |items| - 1
    requires forall i :: 0 <= i < |rows| ==> rows[i] == RowOf(items[i]) && StoreFailure(rows[..i], items[i]).None?
    requires DistinctNames(rows)
    requires StoreFailure(rows, items[|items| - 1]).None?
    ensures var stored := rows + [RowOf(items[|items| - 1])];
      forall i :: 0 <= i < |stored| ==> stored[i] == RowOf(items[i]) && StoreFailure(stored[..i], items[i]).None?
    ensures DistinctNames(rows + [RowOf(items[|items| - 1])])
  {
    var stored := rows + [RowOf(items[|items| - 1])];
    assert stored[..|rows|] == rows;
    assert forall i :: 0 <= i < |rows| ==> stored[..i] == rows[..i];
  }

  /** A list with an entry that cannot be stored cannot be stored with more entries after it. */
  lemma StorablePrefix(items: seq<Value>)
    requires |items| > 0
    ensures Storable(items) ==> Storable(items[..|items| - 1])
  {
  }

  /** Once the earlier entries are stored as `rows`, the whole list is storable exactly when the
      last entry stores without failure. */
  lemma StorableSnoc(items: seq<Value>, rows: seq<SkillRow>)
    requires |items| > 0 && |rows| == |items| - 1
    requires forall i :: 0 <= i < |rows| ==> rows[i] == RowOf(items[i])
    requires Storable(items[..|items| - 1])
    ensures Storable(items) <==> StoreFailure(rows, items[|items| - 1]).None?
  {
    var last := items[|items| - 1];
    assert forall i :: 0 <= i < |rows| ==> rows[i].name == Get(items[i], "name");
    if StoreFailure(rows, last).Some? && last.Obj? && "name" in last.fields {
      var k :| 0 <= k < |rows| && rows[k].name == last.fields["name"];
      assert Get(items[k], "name") == Get(items[|items| - 1], "name");
    }
  }

  /** The rows the skill loop creates for what the extractor returned. Iterating a non-empty string
      or dict yields strings, which are not subscriptable; other non-lists are not iterable. */
  function SkillRows(skills: Value): (r: (seq<SkillRow>, Option<Failure>))
    ensures !skills.Arr? ==> r.0 == [] && (r.1.None? <==> skills in {Str(""), Obj(map[])})
    ensures skills.Arr? && Storable(skills.items) ==> r == (MapSeq(skills.items, RowOf), None)
    ensures skills.Arr? && !Storable(skills.items) ==>
              r.1.Some? && |r.0| < |skills.items| && r.0 == MapSeq(skills.items[..|r.0|], RowOf)
  {
    match skills
    case Arr(items) =>
      var r := RowsOf(items);
      assert r.0 == MapSeq(items[..|r.0|], RowOf);
      assert r.1.None? ==> items[..|r.0|] == items;
      r
    case Str(s) => if |s| == 0 then ([], None) else ([], Some(NotSubscriptable))
    case Obj(m) => if |m| == 0 then ([], None) else ([], Some(NotSubscriptable))
    case _ => ([], Some(NotSubscriptable))
  }

  function RowValues(rows: seq<SkillRow>): (r: seq<Value>)
    ensures |r| == |rows|
  {
    seq(|rows|, i requires 0 <= i < |rows| =>
      Obj(map["name" := rows[i].name, "category" := rows[i].category, "confidence" := rows[i].confidence]))
  }

  /** The text of a decimal integer as Python's `int()` reads it: digits, with single underscores
      allowed between two digits. */
  predicate IntDigits(d: string) {
    |d| > 0 && IsDigit(d[0]) && IsDigit(d[|d| - 1])
    && (forall i :: 0 <= i < |d| ==> IsDigit(d[i]) || d[i] == '_')
    && (forall i :: 0 <= i < |d| - 1 && d[i] == '_' ==> d[i + 1] != '_')
  }

  function WithoutUnderscores(d: string): (r: string)
    requires forall i :: 0 <= i < |d| ==> IsDigit(d[i]) || d[i] == '_'
    ensures forall i :: 0 <= i < |r| ==> IsDigit(r[i])
    ensures (forall i :: 0 <= i < |d| ==> IsDigit(d[i])) ==> r == d
  {
    if |d| == 0 then ""
    else if d[0] == '_' then WithoutUnderscores(d[1..])
    else [d[0]] + WithoutUnderscores(d[1..])
  }

  /** Python's `int(s)` on a string: surrounding white space, an optional sign, then the digits;
      `None` where it raises a `ValueError`. */
  function IntOfText(s: string): (r: Option<int>)
    ensures |s| > 0 && (forall i :: 0 <= i < |s| ==> IsDigit(s[i])) ==> r == Some(ParseDigits(s))
    ensures |PyStrip(s)| == 0 ==> r.None?
  {
    DigitsUnstripped(s);
    var t := PyStrip(s);
    if |t| > 0 && (t[0] == '+' || t[0] == '-') then
      if IntDigits(t[1..]) then
        var n: int := ParseDigits(WithoutUnderscores(t[1..]));
        Some(if t[0] == '-' then -n else n)
      else None
    else if IntDigits(t) then Some(ParseDigits(WithoutUnderscores(t)))
    else None
  }

  /** Digits carry no surrounding white space. */
  lemma DigitsUnstripped(s: string)
    ensures |s| > 0 && (forall i :: 0 <= i < |s| ==> IsDigit(s[i])) ==> PyStrip(s) == s
  {
    if |s| > 0 && (forall i :: 0 <= i < |s| ==> IsDigit(s[i])) {
      TrimNoEdges(s, IsPySpace);
    }
  }

  /** The primary key an id value is looked up by: Django converts it with `int()`, so an integral
      or numeric-text value, a float (truncated) and a bool all name a row; `None` where `int()`
      raises (other text, a list, a dict, None). */
  function IdLookup(resumeId: Value): (r: Option<int>)
    ensures resumeId.Num? ==> r == Some(resumeId.n)
    ensures resumeId.Bool? ==> r == Some(if resumeId.b then 1 else 0)
    ensures resumeId.Real? && resumeId.x >= 0.0 ==>
              r.Some? && r.value as real <= resumeId.x < r.value as real + 1.0
    ensures resumeId.Real? && resumeId.x < 0.0 ==>
              r.Some? && r.value as real - 1.0 < resumeId.x <= r.value as real
    ensures resumeId.Str? ==> r == IntOfText(resumeId.s)
    ensures resumeId.Arr? || resumeId.Obj? || resumeId.Null? || resumeId.Undefined? ==> r.None?
  {
    match resumeId
    case Num(n) => Some(n)
    case Bool(b) => Some(if b then 1 else 0)
    case Real(x) => Some(if x >= 0.0 then x.Floor else -((-x).Floor))
    case Str(s) => IntOfText(s)
    case _ => None
  }

  /** The id names an upload of this user. */
  predicate Owned(resumeId: Value, user: nat, uploads: map<nat, Upload>) {
    IdLookup(resumeId).Some? && IdLookup(resumeId).value >= 0 && IdLookup(resumeId).value in uploads
    && uploads[IdLookup(resumeId).value].owner == user
  }

  /** The row an owned id names. */
  function OwnedId(resumeId: Value, user: nat, uploads: map<nat, Upload>): nat
    requires Owned(resumeId, user, uploads)
  {
    IdLookup(resumeId).value
  }

  /** `parse_resume`. `parse` is what the parser yields for a file type, `extract` what the skill
      extractor yields for a text. Returns the response and the uploads afterwards. */
  function ParseResume(resumeId: Value, user: nat, uploads: map<nat, Upload>,
                       parse: string -> Result<ResumeParser.ParsedResume, ResumeParser.ParseError>,
                       extract: string -> Value, show: Failure -> string): (r: (Response, map<nat, Upload>))
    ensures !PyTruthy(resumeId) ==> r.0.code == 400 && r.1 == uploads
    ensures PyTruthy(resumeId) && IdLookup(resumeId).None? ==> r.0 == ServerError && r.1 == uploads
    ensures PyTruthy(resumeId) && IdLookup(resumeId).Some? && !Owned(resumeId, user, uploads) ==>
              r.0.code == 404 && r.1 == uploads
    ensures r.1.Keys == uploads.Keys
    ensures forall k :: k in uploads && (IdLookup(resumeId).None? || k != IdLookup(resumeId).value) ==> r.1[k] == uploads[k]
    ensures r.0.code == 200 ==> Owned(resumeId, user, uploads) && r.1[OwnedId(resumeId, user, uploads)].status == Completed
    ensures r.0.code == 500 && r.0 != ServerError ==>
              Owned(resumeId, user, uploads) && r.1[OwnedId(resumeId, user, uploads)].status == Failed
  {
    if !PyTruthy(resumeId) then (Response(400, ErrorBody("resume_id is required")), uploads)
    else if IdLookup(resumeId).None? then (ServerError, uploads)
    else if !Owned(resumeId, user, uploads) then
      (Response(404, ErrorBody("Resume not found")), uploads)
    else
      var id: nat := OwnedId(resumeId, user, uploads);
      var upload := uploads[id].(status := Processing);
      match FileTypeOf(upload.fileName)
      case None => (Response(400, ErrorBody("Unsupported file type")), uploads[id := upload])
      case Some(fileType) =>
        match parse(fileType)
        case Err(e) =>
          var f := ParserFailed(e);
          var failed := upload.(status := Failed, errorMessage := FailureText(f, show));
          (Response(500, ErrorBody(FailureText(f, show))), uploads[id := failed])
        case Ok(parsed) =>
          // The text and structured data are saved and the old skills deleted before the loop runs.
          var (rows, failure) := SkillRows(extract(parsed.rawText));
          var data := ResumeData(parsed.rawText, parsed.structuredData, rows);
          match failure
          case Some(f) =>
            var failed := upload.(status := Failed, errorMessage := FailureText(f, show), data := Some(data));
            (Response(500, ErrorBody(FailureText(f, show))), uploads[id := failed])
          case None =>
            var done := upload.(status := Completed, data := Some(data));
            (Response(200, Obj(map["resume_id" := Num(id), "structured_data" := parsed.structuredData,
                                   "skills" := Arr(RowValues(rows))])),
             uploads[id := done])
  }

  /** Django converts the id before looking it up: the id's decimal text, the id as a float, and
      (for id 1) `true` find the same upload as the number itself. */
  lemma ConvertedIdsFindSameUpload(id: nat, user: nat, uploads: map<nat, Upload>,
                                   parse: string -> Result<ResumeParser.ParsedResume, ResumeParser.ParseError>,
                                   extract: string -> Value, show: Failure -> string)
    requires id > 0
    ensures ParseResume(Str(NatToString(id)), user, uploads, parse, extract, show)
            == ParseResume(Num(id), user, uploads, parse, extract, show)
    ensures ParseResume(Real(id as real), user, uploads, parse, extract, show)
            == ParseResume(Num(id), user, uploads, parse, extract, show)
    ensures id == 1 ==> ParseResume(Bool(true), user, uploads, parse, extract, show)
                        == ParseResume(Num(id), user, uploads, parse, extract, show)
  {
    NatToStringRoundTrip(id);
    assert IdLookup(Str(NatToString(id))) == Some(id);
    assert IdLookup(Real(id as real)) == Some(id);
  }

  /** An id that is a lower-case word makes `int()` raise a `ValueError` the view does not catch:
      the framework's 500, with nothing changed. */
  lemma WordIdIsServerError(word: string, user: nat, uploads: map<nat, Upload>,
                            parse: string -> Result<ResumeParser.ParsedResume, ResumeParser.ParseError>,
                            extract: string -> Value, show: Failure -> string)
    requires |word| > 0 && forall i :: 0 <= i < |word| ==> 'a' <= word[i] <= 'z'
    ensures ParseResume(Str(word), user, uploads, parse, extract, show) == (ServerError, uploads)
  {
    TrimNoEdges(word, IsPySpace);
    assert IdLookup(Str(word)).None?;
  }

  /** A file name without a known suffix leaves the upload in 'processing' with a 400 reply. */
  lemma UnsupportedFileStaysProcessing(id: nat, user: nat, uploads: map<nat, Upload>,
                                       parse: string -> Result<ResumeParser.ParsedResume, ResumeParser.ParseError>,
                                       extract: string -> Value, show: Failure -> string)
    requires id > 0 && id in uploads && uploads[id].owner == user
    requires !EndsWith(Lower(uploads[id].fileName), ".pdf") && !EndsWith(Lower(uploads[id].fileName), ".docx")
             && !EndsWith(Lower(uploads[id].fileName), ".doc")
    ensures var (resp, after) := ParseResume(Num(id), user, uploads, parse, extract, show);
            resp.code == 400 && after[id].status == Processing
  {
  }

  /** A successful parse replaces the stored data and all previous skills with the new ones, one
      row per extracted skill, no two with the same name. */
  lemma ParseReplacesSkills(id: nat, user: nat, uploads: map<nat, Upload>,
                            parse: string -> Result<ResumeParser.ParsedResume, ResumeParser.ParseError>,
                            extract: string -> Value, show: Failure -> string)
    requires id > 0 && id in uploads && uploads[id].owner == user
    requires ParseResume(Num(id), user, uploads, parse, extract, show).0.code == 200
    ensures var after := ParseResume(Num(id), user, uploads, parse, extract, show).1;
            var fileType := FileTypeOf(uploads[id].fileName).value;
            after[id].data.Some?
            && after[id].data.value.rawText == parse(fileType).value.rawText
            && after[id].data.value.structuredData == parse(fileType).value.structuredData
            && (after[id].data.value.skills, None) == SkillRows(extract(parse(fileType).value.rawText))
            && DistinctNames(after[id].data.value.skills)
  {
  }

  /** A skill entry that raises fails the request with 500, but what was saved before the loop
      stays saved: the new text and structured data, the old skills gone, and the rows created
      before the failing entry kept. */
  lemma SkillFailureKeepsPartialSave(id: nat, user: nat, uploads: map<nat, Upload>,
                                     parse: string -> Result<ResumeParser.ParsedResume, ResumeParser.ParseError>,
                                     extract: string -> Value, show: Failure -> string)
    requires id > 0 && id in uploads && uploads[id].owner == user
    requires FileTypeOf(uploads[id].fileName).Some?
    requires parse(FileTypeOf(uploads[id].fileName).value).Ok?
    requires SkillRows(extract(parse(FileTypeOf(uploads[id].fileName).value).value.rawText)).1.Some?
    ensures var (resp, after) := ParseResume(Num(id), user, uploads, parse, extract, show);
            var parsed := parse(FileTypeOf(uploads[id].fileName).value).value;
            var (rows, failure) := SkillRows(extract(parsed.rawText));
            resp.code == 500 && after[id].status == Failed
            && after[id].errorMessage == FailureText(failure.value, show)
            && after[id].data == Some(ResumeData(parsed.rawText, parsed.structuredData, rows))
  {
  }

  /** Two extracted skills with the same name make the request fail with 500. */
  lemma DuplicateSkillNameFails(id: nat, user: nat, uploads: map<nat, Upload>,
                                parse: string -> Result<ResumeParser.ParsedResume, ResumeParser.ParseError>,
                                extract: string -> Value, show: Failure -> string, i: nat, j: nat)
    requires id > 0 && id in uploads && uploads[id].owner == user
    requires FileTypeOf(uploads[id].fileName).Some?
    requires parse(FileTypeOf(uploads[id].fileName).value).Ok?
    requires var skills := extract(parse(FileTypeOf(uploads[id].fileName).value).value.rawText);
             skills.Arr? && i < j < |skills.items| && Get(skills.items[i], "name") == Get(skills.items[j], "name")
    ensures ParseResume(Num(id), user, uploads, parse, extract, show).0.code == 500
  {
    var skills := extract(parse(FileTypeOf(uploads[id].fileName).value).value.rawText);
    assert !Storable(skills.items);
  }

  /** The AI endpoints that check one required request field before doing anything. */
  datatype Endpoint = GenerateBio | ExtractSkills | GenerateProjectDescription | ImproveText | AnalyzeSeo

  function RequiredField(e: Endpoint): (string, Value) {
    match e
    case GenerateBio => ("resume_data", Obj(map[]))
    case ExtractSkills => ("resume_text", Str(""))
    case GenerateProjectDescription => ("title", Str(""))
    case ImproveText => ("text", Str(""))
    case AnalyzeSeo => ("portfolio_id", Undefined)
  }

  /** The 400 reply when the endpoint's required field is missing or falsy, else `None`. */
  function CheckRequired(e: Endpoint, data: Value): (r: Option<Response>)
    ensures r.Some? <==> !PyTruthy(GetOr(data, RequiredField(e).0, RequiredField(e).1))
    ensures r.Some? ==> r.value.code == 400 && r.value.body == ErrorBody(RequiredField(e).0 + " is required")
  {
    var (key, default) := RequiredField(e);
    if !PyTruthy(GetOr(data, key, default)) then Some(Response(400, ErrorBody(key + " is required"))) else None
  }

  /** A stored component as the SEO view reads it. */
  datatype ComponentRecord = ComponentRecord(isVisible: bool, content: Value)

  datatype PortfolioRecord = PortfolioRecord(title: string, seoTitle: string, seoDescription: string,
                                             seoKeywords: string, components: seq<ComponentRecord>)

  predicate IsShown(c: ComponentRecord) { c.isVisible }

  /** `str(content)` of the visible components, in order. */
  function VisibleTexts(components: seq<ComponentRecord>, show: Value -> string): (r: seq<string>)
    ensures |r| == |Filter(components, IsShown)|
    ensures forall i :: 0 <= i < |r| ==> r[i] == show(Filter(components, IsShown)[i].content)
  {
    if |components| == 0 then []
    else
      var last := components[|components| - 1];
      VisibleTexts(components[..|components| - 1], show) + (if last.isVisible then [show(last.content)] else [])
  }

  /** The input the SEO view builds: the SEO fields falling back to the title or "", the content
      text made of the title and then the visible components' content, joined by spaces, and zero
      image and link counts. */
  function SeoContent(p: PortfolioRecord, show: Value -> string): (r: SeoAnalyzer.SeoInput)
    ensures r.title == (if |p.seoTitle| > 0 then p.seoTitle else p.title)
    ensures r.description == p.seoDescription && r.keywords == p.seoKeywords
    ensures StartsWith(r.contentText, p.title)
    ensures exists texts: seq<string> ::
              |texts| == |Filter(p.components, IsShown)|
              && (forall i :: 0 <= i < |texts| ==> texts[i] == show(Filter(p.components, IsShown)[i].content))
              && r.contentText == Join([p.title] + texts, " ")
    ensures r.imageAltText == Some(Obj(map["total" := Num(0), "with_alt" := Num(0)]))
    ensures r.links == Some(Obj(map["internal" := Num(0), "external" := Num(0)]))
  {
    var texts := VisibleTexts(p.components, show);
    var text := Join([p.title] + texts, " ");
    JoinStartsWithFirst([p.title] + texts, " ");
    SeoAnalyzer.SeoInput(if |p.seoTitle| > 0 then p.seoTitle else p.title, p.seoDescription, p.seoKeywords,
                         text, Some(Obj(map["total" := Num(0), "with_alt" := Num(0)])),
                         Some(Obj(map["internal" := Num(0), "external" := Num(0)])))
  }

  lemma JoinStartsWithFirst(parts: seq<string>, sep: string)
    requires |parts| > 0
    ensures StartsWith(Join(parts, sep), parts[0])
  {
    if |parts| > 1 {
      assert Join(parts, sep) == parts[0] + (sep + Join(parts[1..], sep));
    }
  }

  /** Hidden components do not influence the analysis input: dropping them changes nothing. */
  lemma {:induction false} HiddenComponentsIgnored(components: seq<ComponentRecord>, show: Value -> string)
    ensures VisibleTexts(components, show) == VisibleTexts(Filter(components, IsShown), show)
  {
    var shown := Filter(components, IsShown);
    FilterAll(shown, IsShown);
    assert VisibleTexts(shown, show) == VisibleTexts(components, show);
  }
}
