/** The front end's mapping of parsed resume data onto portfolio component content: skill
    normalisation, the experience timeline and project conversions, the catalogue of
    available fields, the default mappings per component type, and their preview and
    application through dotted paths. The resume is the parser's JSON (`Value`), so every
    field may be missing or of an unexpected type. */
module ResumeFieldMapper {
  import opened Base
  import opened Strings
  import opened Seqs
  import opened Json
  import opened JsText
  import opened FieldPaths

  // ---------------------------------------------------------------------------------------
  // Skills

  /** A string with no white space at either end. */
  predicate Trimmed(x: string) {
    JsTrim(x) == x
  }

  /** One skill of a skills array as written: a string trimmed, anything else through
      `String(skill || '')` and trimmed. */
  function SkillText(x: Value, show: Value -> string): (t: string)
    ensures Trimmed(t)
  {
    var raw := if x.Str? then x.s else JsString(JsOr(x, Str("")), show);
    TrimIdempotent(raw, IsJsSpace);
    JsTrim(raw)
  }

  /** The trimmed pieces before empty ones are dropped: an array's entries, or a string's
      comma-separated pieces. */
  function SkillPieces(skills: Value, show: Value -> string): (ps: seq<string>)
    ensures forall i :: 0 <= i < |ps| ==> Trimmed(ps[i])
    ensures skills.Str? ==> forall i :: 0 <= i < |ps| ==> ',' !in ps[i]
    ensures skills.Arr? ==> |ps| == |skills.items|
  {
    if !JsTruthy(skills) then []
    else if skills.Arr? then
      seq(|skills.items|, i requires 0 <= i < |skills.items| => SkillText(skills.items[i], show))
    else if skills.Str? then
      var ps := SplitTrim(skills.s);
      forall i | 0 <= i < |ps|
        ensures Trimmed(ps[i])
      {
        TrimIdempotent(Split(skills.s, ',')[i], IsJsSpace);
      }
      ps
    else []
  }

  /** `normalizeResumeSkills`: a falsy value gives []; an array has its entries trimmed and the
      empty ones dropped; a string is split on ',' with the pieces trimmed and the empty ones
      dropped; any other value gives []. */
  function NormalizeResumeSkills(skills: Value, show: Value -> string): (r: seq<string>)
    ensures forall i :: 0 <= i < |r| ==> r[i] != "" && Trimmed(r[i])
    ensures !JsTruthy(skills) || !(skills.Arr? || skills.Str?) ==> r == []
    ensures skills.Str? ==> forall i :: 0 <= i < |r| ==> ',' !in r[i]
    ensures skills.Arr? ==> |r| <= |skills.items|
  {
    NonEmpty(SkillPieces(skills, show))
  }

  /** Normalised skills written back as an array normalise to themselves. */
  lemma NormalizeSkillsIdempotent(skills: Value, show: Value -> string)
    ensures NormalizeResumeSkills(Arr(Strs(NormalizeResumeSkills(skills, show))), show)
            == NormalizeResumeSkills(skills, show)
  {
    var r := NormalizeResumeSkills(skills, show);
    var ps := SkillPieces(Arr(Strs(r)), show);
    assert ps == r by {
      forall i | 0 <= i < |r|
        ensures ps[i] == r[i]
      {
        assert SkillText(Str(r[i]), show) == JsTrim(r[i]);
      }
    }
    NonEmptyKeepsAll(r);
  }

  /** Skills joined with ", " and normalised again come back unchanged when none holds a comma
      or edge white space. */
  lemma NormalizeJoinedSkills(xs: seq<string>, show: Value -> string)
    requires forall i :: 0 <= i < |xs| ==> xs[i] != "" && PlainName(xs[i])
    ensures NormalizeResumeSkills(Str(Join(xs, ", ")), show) == xs
  {
    if |xs| == 0 {
      NoJoinedSkills(xs, show);
    } else {
      JoinedSkillPieces(xs, show);
      NormalizeOfPieces(Str(Join(xs, ", ")), show, xs);
    }
  }

  /** An empty list joins to "", which normalises to no skills. */
  lemma NoJoinedSkills(xs: seq<string>, show: Value -> string)
    requires |xs| == 0
    ensures NormalizeResumeSkills(Str(Join(xs, ", ")), show) == xs
  {
    assert Join(xs, ", ") == "";
  }

  /** The pieces of joined plain names are the names. */
  lemma JoinedSkillPieces(xs: seq<string>, show: Value -> string)
    requires |xs| > 0 && forall i :: 0 <= i < |xs| ==> xs[i] != "" && PlainName(xs[i])
    ensures SkillPieces(Str(Join(xs, ", ")), show) == xs
  {
    JoinStartsWithFirst(xs, ", ");
    SkillPiecesOfString(Join(xs, ", "), show);
    TagsRoundTrip(xs);
  }

  /** When no trimmed piece is empty, normalising keeps them all. */
  lemma NormalizeOfPieces(v: Value, show: Value -> string, xs: seq<string>)
    requires SkillPieces(v, show) == xs
    requires forall i :: 0 <= i < |xs| ==> xs[i] != ""
    ensures NormalizeResumeSkills(v, show) == xs
  {
    NonEmptyKeepsAll(xs);
  }

  /** A join is at least as long as its first part. */
  lemma JoinStartsWithFirst(xs: seq<string>, sep: string)
    requires |xs| > 0
    ensures |Join(xs, sep)| >= |xs[0]|
  {
    if |xs| > 1 {
      assert Join(xs, sep) == xs[0] + sep + Join(xs[1..], sep);
    }
  }

  /** A non-empty skills string is split and trimmed, all pieces kept. */
  lemma SkillPiecesOfString(s: string, show: Value -> string)
    requires s != ""
    ensures SkillPieces(Str(s), show) == SplitTrim(s)
  {
  }

  // ---------------------------------------------------------------------------------------
  // Experience timeline

  datatype TimelineEntry = TimelineEntry(title: Value, company: Value, startDate: Value, endDate: Value,
                                         description: Value, location: Value)

  /** The responsibilities joined with `sep` when they form an array, else "". */
  function Responsibilities(exp: Value, sep: string, show: Value -> string): string {
    var rs := Get(exp, "responsibilities");
    if rs.Arr? then ArrayJoin(rs.items, sep, show) else ""
  }

  /** One experience entry as a timeline entry: title falls back to position, description to
      the responsibilities joined with newlines, everything else to "". */
  function ToTimelineEntry(exp: Value, show: Value -> string): TimelineEntry {
    TimelineEntry(
      JsOr(Get(exp, "title"), JsOr(Get(exp, "position"), Str(""))),
      JsOr(Get(exp, "company"), Str("")),
      JsOr(Get(exp, "start_date"), Str("")),
      JsOr(Get(exp, "end_date"), Str("")),
      JsOr(Get(exp, "description"), Str(Responsibilities(exp, "\n", show))),
      JsOr(Get(exp, "location"), Str("")))
  }

  /** An entry the timeline keeps: some of title, company, description or the dates is set
      (the location alone does not count). */
  predicate HasContent(e: TimelineEntry) {
    JsTruthy(e.title) || JsTruthy(e.company) || JsTruthy(e.description) || JsTruthy(e.startDate)
    || JsTruthy(e.endDate)
  }

  /** `convertExperienceToTimeline`: the converted entries with content, in input order; []
      when the experience is not an array. */
  function ConvertExperienceToTimeline(experience: Value, show: Value -> string): (r: seq<TimelineEntry>)
    ensures !experience.Arr? ==> r == []
    ensures experience.Arr? ==> |r| <= |experience.items|
    ensures forall i :: 0 <= i < |r| ==> HasContent(r[i])
    ensures experience.Arr? ==> forall i :: 0 <= i < |r| ==> exists j :: 0 <= j < |experience.items| && r[i] == ToTimelineEntry(experience.items[j], show)
    ensures experience.Arr? ==> forall j :: 0 <= j < |experience.items| && HasContent(ToTimelineEntry(experience.items[j], show)) ==> ToTimelineEntry(experience.items[j], show) in r
  {
    if !experience.Arr? then []
    else
      var items := experience.items;
      var all := TimelineEntries(items, show);
      assert forall j :: 0 <= j < |items| ==> all[j] == ToTimelineEntry(items[j], show);
      Filter(all, HasContent)
  }

  /** Every experience entry converted, in input order. */
  function TimelineEntries(items: seq<Value>, show: Value -> string): (r: seq<TimelineEntry>)
    ensures |r| == |items| && forall i :: 0 <= i < |items| ==> r[i] == ToTimelineEntry(items[i], show)
  {
    seq(|items|, i requires 0 <= i < |items| => ToTimelineEntry(items[i], show))
  }

  /** Converting a list is converting its two halves and concatenating: with the one-entry case
      below this fixes the timeline, entries in input order. */
  lemma ConvertExperienceAppend(a: seq<Value>, b: seq<Value>, show: Value -> string)
    ensures ConvertExperienceToTimeline(Arr(a + b), show)
            == ConvertExperienceToTimeline(Arr(a), show) + ConvertExperienceToTimeline(Arr(b), show)
  {
    assert TimelineEntries(a + b, show) == TimelineEntries(a, show) + TimelineEntries(b, show);
    FilterAppend(TimelineEntries(a, show), TimelineEntries(b, show), HasContent);
  }

  /** One experience gives its converted entry exactly when that entry has content. */
  lemma ConvertOneExperience(x: Value, show: Value -> string)
    ensures ConvertExperienceToTimeline(Arr([x]), show)
            == if HasContent(ToTimelineEntry(x, show)) then [ToTimelineEntry(x, show)] else []
  {
    assert TimelineEntries([x], show) == [] + [ToTimelineEntry(x, show)];
  }

  /** Experiences that all name a title keep one timeline entry each, in order. */
  lemma TitledExperienceKeepsEveryEntry(items: seq<Value>, show: Value -> string)
    requires forall i :: 0 <= i < |items| ==> JsTruthy(Get(items[i], "title"))
    ensures |ConvertExperienceToTimeline(Arr(items), show)| == |items|
    ensures forall i :: 0 <= i < |items| ==> ConvertExperienceToTimeline(Arr(items), show)[i].title == Get(items[i], "title")
  {
    FilterAll(TimelineEntries(items, show), HasContent);
  }

  /** A timeline entry as the object the timeline component reads. */
  function TimelineValue(e: TimelineEntry): (v: Value)
    ensures v.Obj? && Get(v, "title") == e.title && Get(v, "description") == e.description
  {
    Obj(map["title" := e.title, "company" := e.company, "startDate" := e.startDate, "endDate" := e.endDate,
            "description" := e.description, "location" := e.location])
  }

  // ---------------------------------------------------------------------------------------
  // Experience to projects

  datatype ExperienceProject = ExperienceProject(title: Value, description: Value, shortDescription: Value,
                                                 company: Value)

  const ShortDescriptionLength: nat := 200

  /** The indices converted: the selection when non-empty, else every index; indices out of
      range are dropped; order and repetitions are kept. */
  function PickIndices(n: nat, selected: seq<int>): (r: seq<int>)
    ensures forall i :: 0 <= i < |r| ==> 0 <= r[i] < n
    ensures |selected| == 0 ==> r == seq(n, i => i)
    ensures |selected| > 0 ==> forall i :: 0 <= i < |selected| && 0 <= selected[i] < n ==> selected[i] in r
    ensures |selected| > 0 ==> forall i :: 0 <= i < |r| ==> r[i] in selected
  {
    var candidates := if |selected| > 0 then selected else seq(n, i => i);
    var r := Filter(candidates, (i: int) => 0 <= i < n);
    assert |selected| == 0 ==> r == candidates by {
      if |selected| == 0 {
        FilterAll(candidates, (i: int) => 0 <= i < n);
      }
    }
    r
  }

  /** The description written in short: unchanged up to 200 characters, else the first 200
      and "..."; a non-string has no length and passes unchanged. */
  function ShortDescription(d: Value): (r: Value)
    ensures d.Str? && |d.s| <= ShortDescriptionLength ==> r == d
    ensures d.Str? && |d.s| > ShortDescriptionLength ==>
              (r.Str? && |r.s| == ShortDescriptionLength + 3 && r.s[..ShortDescriptionLength] == d.s[..ShortDescriptionLength]
               && r.s[ShortDescriptionLength..] == "...")
    ensures !d.Str? ==> r == d
  {
    if d.Str? && |d.s| > ShortDescriptionLength then Str(d.s[..ShortDescriptionLength] + "...") else d
  }

  /** One experience entry as a project: title falls back to position and then "Project";
      "T at C" exactly when the company is set; the description falls back to the
      responsibilities joined with ". " and then to "Project description". */
  function ToProject(exp: Value, show: Value -> string): (p: ExperienceProject)
    ensures JsTruthy(p.title) && JsTruthy(p.description)
    ensures p.shortDescription == ShortDescription(p.description)
  {
    var title := ProjectTitle(exp);
    var company := JsOr(Get(exp, "company"), Str(""));
    var description := JsOr(Get(exp, "description"),
                            JsOr(Str(Responsibilities(exp, ". ", show)), Str("Project description")));
    ExperienceProject(if JsTruthy(company) then Str(JsString(title, show) + " at " + JsString(company, show)) else title,
                      description, ShortDescription(description), company)
  }

  /** The title names the company, as "T at C", exactly when the company is set; otherwise it is
      the plain title. */
  lemma ProjectTitleNamesCompany(exp: Value, show: Value -> string)
    ensures var p := ToProject(exp, show);
            JsTruthy(Get(exp, "company")) ==>
              (p.company == Get(exp, "company") && p.title.Str? && EndsWith(p.title.s, " at " + JsString(p.company, show)))
    ensures var p := ToProject(exp, show);
            !JsTruthy(Get(exp, "company")) ==> (p.company == Str("") && p.title == ProjectTitle(exp))
  {
    var p := ToProject(exp, show);
    if JsTruthy(Get(exp, "company")) {
      var suffix := " at " + JsString(p.company, show);
      var full := JsString(ProjectTitle(exp), show) + suffix;
      assert p.title.s == full;
      assert full[|full| - |suffix|..] == suffix;
    }
  }

  /** `exp.title || exp.position || 'Project'`. */
  function ProjectTitle(exp: Value): (t: Value)
    ensures JsTruthy(t)
    ensures JsTruthy(Get(exp, "title")) ==> t == Get(exp, "title")
  {
    JsOr(Get(exp, "title"), JsOr(Get(exp, "position"), Str("Project")))
  }

  /** `convertExperienceToProjects`: one project per picked index, in the order picked; []
      when the experience is not an array. */
  function ConvertExperienceToProjects(experience: Value, selected: seq<int>, show: Value -> string)
    : (r: seq<ExperienceProject>)
    ensures !experience.Arr? ==> r == []
    ensures experience.Arr? ==>
              var picked := PickIndices(|experience.items|, selected);
              |r| == |picked| && forall k :: 0 <= k < |r| ==> r[k] == ToProject(experience.items[picked[k]], show)
  {
    if !experience.Arr? then []
    else
      var items := experience.items;
      var picked := PickIndices(|items|, selected);
      seq(|picked|, k requires 0 <= k < |picked| => ToProject(items[picked[k]], show))
  }

  /** With no selection every experience becomes a project, in order. */
  lemma NoSelectionConvertsAll(items: seq<Value>, show: Value -> string)
    ensures |ConvertExperienceToProjects(Arr(items), [], show)| == |items|
    ensures forall i :: 0 <= i < |items| ==> ConvertExperienceToProjects(Arr(items), [], show)[i] == ToProject(items[i], show)
  {
  }

  /** A project as the object the project grid reads; technologies are always empty. */
  function ProjectValue(p: ExperienceProject): (v: Value)
    ensures v.Obj? && Get(v, "technologies") == Arr([]) && Get(v, "title") == p.title
  {
    Obj(map["title" := p.title, "description" := p.description, "short_description" := p.shortDescription,
            "company" := p.company, "technologies" := Arr([])])
  }

  // ---------------------------------------------------------------------------------------
  // Fallback chains shared by the field catalogue and the default mappings

  /** `location || address`. */
  function Location(r: Value): Value {
    JsOr(Get(r, "location"), Get(r, "address"))
  }

  /** `linkedin || linkedin_url || social?.linkedin`. */
  function Linkedin(r: Value): Value {
    JsOr(JsOr(Get(r, "linkedin"), Get(r, "linkedin_url")), Get(Get(r, "social"), "linkedin"))
  }

  /** `github || github_url || social?.github`. */
  function Github(r: Value): Value {
    JsOr(JsOr(Get(r, "github"), Get(r, "github_url")), Get(Get(r, "social"), "github"))
  }

  /** `website || portfolio_url || social?.website || social?.portfolio`. */
  function Website(r: Value): Value {
    JsOr(JsOr(JsOr(Get(r, "website"), Get(r, "portfolio_url")), Get(Get(r, "social"), "website")),
         Get(Get(r, "social"), "portfolio"))
  }

  /** The hero headline: title, then summary, then the first experience's title or position. */
  function Headline(r: Value): Value {
    var first := Index(Get(r, "experience"), 0);
    JsOr(JsOr(JsOr(JsOr(Get(r, "title"), Get(r, "summary")), Get(first, "title")), Get(first, "position")), Str(""))
  }

  /** The social links take the first truthy of their sources, in the order top-level key,
      `*_url` key, `social` object. */
  lemma SocialChainsPickFirstTruthy(r: Value)
    ensures Linkedin(r) == OrChain([Get(r, "linkedin"), Get(r, "linkedin_url"), Get(Get(r, "social"), "linkedin")])
    ensures Github(r) == OrChain([Get(r, "github"), Get(r, "github_url"), Get(Get(r, "social"), "github")])
    ensures Website(r) == OrChain([Get(r, "website"), Get(r, "portfolio_url"), Get(Get(r, "social"), "website"),
                                   Get(Get(r, "social"), "portfolio")])
    ensures Location(r) == OrChain([Get(r, "location"), Get(r, "address")])
  {
    OrChainTwo(Get(r, "location"), Get(r, "address"));
    OrChainThree(Get(r, "linkedin"), Get(r, "linkedin_url"), Get(Get(r, "social"), "linkedin"));
    OrChainThree(Get(r, "github"), Get(r, "github_url"), Get(Get(r, "social"), "github"));
    OrChainFour(Get(r, "website"), Get(r, "portfolio_url"), Get(Get(r, "social"), "website"),
                Get(Get(r, "social"), "portfolio"));
  }

  /** The headline is the first truthy of title, summary, the first experience's title and
      position, and "" when none is. */
  lemma HeadlinePicksFirstTruthy(r: Value)
    ensures var first := Index(Get(r, "experience"), 0);
            Headline(r) == OrChain([Get(r, "title"), Get(r, "summary"), Get(first, "title"), Get(first, "position"), Str("")])
  {
    var first := Index(Get(r, "experience"), 0);
    var xs := [Get(r, "title"), Get(r, "summary"), Get(first, "title"), Get(first, "position"), Str("")];
    OrChainFour(xs[1], xs[2], xs[3], xs[4]);
    assert xs[1..] == [xs[1], xs[2], xs[3], xs[4]];
    assert JsOr(JsOr(JsOr(JsOr(xs[0], xs[1]), xs[2]), xs[3]), xs[4]) == JsOr(xs[0], OrChain(xs[1..]));
  }

  lemma OrChainTwo(a: Value, b: Value)
    ensures OrChain([a, b]) == JsOr(a, b)
  {
    assert [a, b][1..] == [b];
  }

  lemma OrChainThree(a: Value, b: Value, c: Value)
    ensures OrChain([a, b, c]) == JsOr(JsOr(a, b), c)
  {
    assert [a, b, c][1..] == [b, c];
    OrChainTwo(b, c);
  }

  lemma OrChainFour(a: Value, b: Value, c: Value, d: Value)
    ensures OrChain([a, b, c, d]) == JsOr(JsOr(JsOr(a, b), c), d)
  {
    assert [a, b, c, d][1..] == [b, c, d];
    OrChainThree(b, c, d);
  }

  // ---------------------------------------------------------------------------------------
  // Available fields

  /** The resume fields a mapping or a catalogue entry is named after. */
  datatype ResumeKey =
    | NameKey | TitleKey | SummaryKey | EmailKey | PhoneKey | LocationKey | LinkedinKey | GithubKey | WebsiteKey
    | SkillsKey | ExperienceKey | EducationKey | CertificationsKey

  /** The name the front end uses for each field. */
  function KeyName(k: ResumeKey): string {
    match k
    case NameKey => "name"
    case TitleKey => "title"
    case SummaryKey => "summary"
    case EmailKey => "email"
    case PhoneKey => "phone"
    case LocationKey => "location"
    case LinkedinKey => "linkedin"
    case GithubKey => "github"
    case WebsiteKey => "website"
    case SkillsKey => "skills"
    case ExperienceKey => "experience"
    case EducationKey => "education"
    case CertificationsKey => "certifications"
  }

  datatype FieldKind = TextField | ArrayField

  datatype ResumeField = ResumeField(key: ResumeKey, value: Value, kind: FieldKind)

  datatype AvailableFields = AvailableFields(personal: seq<ResumeField>, experience: seq<ResumeField>,
                                             education: seq<ResumeField>, skills: seq<ResumeField>,
                                             contact: seq<ResumeField>, certifications: seq<ResumeField>)

  /** A field listed only when its value is truthy. */
  function Listed(key: ResumeKey, v: Value, kind: FieldKind): (r: seq<ResumeField>)
    ensures JsTruthy(v) ==> r == [ResumeField(key, v, kind)]
    ensures !JsTruthy(v) ==> r == []
  {
    if JsTruthy(v) then [ResumeField(key, v, kind)] else []
  }

  /** A non-empty array. */
  predicate NonEmptyArray(v: Value) {
    v.Arr? && |v.items| > 0
  }

  /** The array value the skills field lists: the array itself, or a string's comma-split
      pieces trimmed with the empty ones kept. */
  function SkillsArray(skills: Value): seq<Value> {
    if !JsTruthy(skills) then []
    else if skills.Arr? then skills.items
    else if skills.Str? then Strs(SplitTrim(skills.s))
    else []
  }

  /** Every listed field has a truthy value. */
  predicate AllTruthy(fs: seq<ResumeField>) {
    forall i :: 0 <= i < |fs| ==> JsTruthy(fs[i].value)
  }

  /** The contact fields in the order the catalogue lists them. */
  function ContactFields(r: Value): (fs: seq<ResumeField>)
    ensures AllTruthy(fs)
  {
    (Listed(EmailKey, Get(r, "email"), TextField) + Listed(PhoneKey, Get(r, "phone"), TextField)
     + Listed(LocationKey, Location(r), TextField))
    + (Listed(LinkedinKey, Linkedin(r), TextField) + Listed(GithubKey, Github(r), TextField)
       + Listed(WebsiteKey, Website(r), TextField))
  }

  /** An array-valued field listed when it is a non-empty array. */
  function ListedArray(key: ResumeKey, v: Value): (r: seq<ResumeField>)
    ensures AllTruthy(r)
    ensures r != [] <==> NonEmptyArray(v)
    ensures NonEmptyArray(v) ==> r == [ResumeField(key, v, ArrayField)]
  {
    if NonEmptyArray(v) then [ResumeField(key, v, ArrayField)] else []
  }

  /** `getAvailableResumeFields`: six categories; a null resume gives six empty ones. */
  function GetAvailableResumeFields(r: Value): (f: AvailableFields)
    ensures !JsTruthy(r) ==> f == AvailableFields([], [], [], [], [], [])
    ensures AllTruthy(f.personal) && AllTruthy(f.experience) && AllTruthy(f.education)
            && AllTruthy(f.skills) && AllTruthy(f.contact) && AllTruthy(f.certifications)
    ensures JsTruthy(r) ==> f.contact == ContactFields(r)
    ensures JsTruthy(r) && Get(r, "skills").Str? && Get(r, "skills").s != "" ==>
              f.skills == [ResumeField(SkillsKey, Arr(Strs(SplitTrim(Get(r, "skills").s))), ArrayField)]
    ensures JsTruthy(r) && NonEmptyArray(Get(r, "skills")) ==>
              f.skills == [ResumeField(SkillsKey, Get(r, "skills"), ArrayField)]
    ensures JsTruthy(r) && !Get(r, "skills").Str? && !NonEmptyArray(Get(r, "skills")) ==> f.skills == []
    ensures JsTruthy(r) ==> (f.experience != [] <==> NonEmptyArray(Get(r, "experience")))
    ensures JsTruthy(r) ==>
              f.personal == Listed(NameKey, Get(r, "name"), TextField) + Listed(TitleKey, Get(r, "title"), TextField)
                            + Listed(SummaryKey, Get(r, "summary"), TextField)
    ensures JsTruthy(r) ==> f.experience == ListedArray(ExperienceKey, Get(r, "experience"))
    ensures JsTruthy(r) ==> f.education == ListedArray(EducationKey, Get(r, "education"))
    ensures JsTruthy(r) ==> f.certifications == ListedArray(CertificationsKey, Get(r, "certifications"))
  {
    if !JsTruthy(r) then AvailableFields([], [], [], [], [], [])
    else
      AvailableFields(PersonalFields(r), ListedArray(ExperienceKey, Get(r, "experience")),
                      ListedArray(EducationKey, Get(r, "education")), SkillsFields(Get(r, "skills")), ContactFields(r),
                      ListedArray(CertificationsKey, Get(r, "certifications")))
  }

  /** The personal fields: name, title and summary, each when set. */
  function PersonalFields(r: Value): (fs: seq<ResumeField>)
    ensures AllTruthy(fs)
  {
    Listed(NameKey, Get(r, "name"), TextField) + Listed(TitleKey, Get(r, "title"), TextField)
    + Listed(SummaryKey, Get(r, "summary"), TextField)
  }

  /** The skills field, listed when its array value is non-empty. */
  function SkillsFields(skills: Value): (fs: seq<ResumeField>)
    ensures AllTruthy(fs)
    ensures skills.Str? && skills.s != "" ==> fs == [ResumeField(SkillsKey, Arr(Strs(SplitTrim(skills.s))), ArrayField)]
    ensures NonEmptyArray(skills) ==> fs == [ResumeField(SkillsKey, skills, ArrayField)]
    ensures !skills.Str? && !NonEmptyArray(skills) ==> fs == []
  {
    var skillsArray := SkillsArray(skills);
    assert skills.Str? && skills.s != "" ==> skillsArray == Strs(SplitTrim(skills.s));
    if |skillsArray| > 0 then [ResumeField(SkillsKey, Arr(skillsArray), ArrayField)] else []
  }

  /** A string skills value is always listed, even one made only of commas and spaces: its
      pieces are kept although they are empty. */
  lemma BlankSkillsStillListed(r: Value)
    requires JsTruthy(r) && Get(r, "skills") == Str(" , ")
    ensures GetAvailableResumeFields(r).skills == [ResumeField(SkillsKey, Arr([Str(""), Str("")]), ArrayField)]
  {
    assert Split(" ", ',') == [" "] by {
      assert " "[1..] == "";
      assert Split("", ',') == [""];
      assert [' '] + "" == " ";
    }
    assert Split(", ", ',') == ["", " "] by {
      assert ", "[1..] == " ";
    }
    assert Split(" , ", ',') == [" ", " "] by {
      assert " , "[1..] == ", ";
    }
    assert AllSpace(" ", IsJsSpace);
    TrimEmptyIff(" ", IsJsSpace);
    assert SplitTrim(" , ") == ["", ""];
    assert SkillsArray(Get(r, "skills")) == [Str(""), Str("")];
  }

  // ---------------------------------------------------------------------------------------
  // Default mappings

  /** The component types that have default mappings. */
  datatype MappedType = HeroBanner | AboutMeCard | SkillsCloud | ExperienceTimeline | ProjectGrid | ContactForm

  /** The `component_type` string of each mapped type. */
  function TypeName(t: MappedType): string {
    match t
    case HeroBanner => "hero_banner"
    case AboutMeCard => "about_me_card"
    case SkillsCloud => "skills_cloud"
    case ExperienceTimeline => "experience_timeline"
    case ProjectGrid => "project_grid"
    case ContactForm => "contact_form"
  }

  /** The mapped type a `component_type` string names, if any. */
  function MappedTypeOf(componentType: string): (t: Option<MappedType>)
    ensures t.Some? ==> TypeName(t.value) == componentType
  {
    if componentType == "hero_banner" then Some(HeroBanner)
    else if componentType == "about_me_card" then Some(AboutMeCard)
    else if componentType == "skills_cloud" then Some(SkillsCloud)
    else if componentType == "experience_timeline" then Some(ExperienceTimeline)
    else if componentType == "project_grid" then Some(ProjectGrid)
    else if componentType == "contact_form" then Some(ContactForm)
    else None
  }

  /** Every mapped type is recognised by its name. */
  lemma MappedTypeNamesRoundTrip(t: MappedType)
    ensures MappedTypeOf(TypeName(t)) == Some(t)
  {
  }

  datatype FieldMapping = FieldMapping(resumeField: ResumeKey, componentField: string, value: Value, enabled: bool)

  /** An enabled mapping present only when its value is truthy. */
  function MapIf(key: ResumeKey, componentField: string, v: Value): (r: seq<FieldMapping>)
    ensures JsTruthy(v) ==> r == [FieldMapping(key, componentField, v, true)]
    ensures !JsTruthy(v) ==> r == []
  {
    if JsTruthy(v) then [FieldMapping(key, componentField, v, true)] else []
  }

  /** The resume fields of a list of mappings are pairwise different. */
  predicate DistinctFields(ms: seq<FieldMapping>) {
    forall i, j :: 0 <= i < j < |ms| ==> ms[i].resumeField != ms[j].resumeField
  }

  /** Every mapping's value is truthy. */
  predicate ValuesTruthy(ms: seq<FieldMapping>) {
    forall i :: 0 <= i < |ms| ==> JsTruthy(ms[i].value)
  }

  /** Every mapping is enabled. */
  predicate AllEnabled(ms: seq<FieldMapping>) {
    forall i :: 0 <= i < |ms| ==> ms[i].enabled
  }

  /** Every mapping names one of `keys`. */
  predicate FieldsIn(ms: seq<FieldMapping>, keys: set<ResumeKey>) {
    forall i :: 0 <= i < |ms| ==> ms[i].resumeField in keys
  }

  /** Mapping lists with distinct fields, drawn from disjoint key sets, append to one with
      distinct fields. */
  lemma DistinctAppend(a: seq<FieldMapping>, ka: set<ResumeKey>, b: seq<FieldMapping>, kb: set<ResumeKey>)
    requires DistinctFields(a) && DistinctFields(b) && FieldsIn(a, ka) && FieldsIn(b, kb) && ka !! kb
    ensures DistinctFields(a + b) && FieldsIn(a + b, ka + kb)
  {
  }

  /** A mapping list of at most one entry. */
  lemma Single(ms: seq<FieldMapping>, k: ResumeKey)
    requires |ms| <= 1 && FieldsIn(ms, {k})
    ensures DistinctFields(ms)
  {
  }

  function HeroMappings(r: Value): (ms: seq<FieldMapping>)
    ensures DistinctFields(ms) && ValuesTruthy(ms)
    ensures forall i :: 0 <= i < |ms| && !ms[i].enabled ==> ms[i].resumeField == SummaryKey
  {
    MapIf(NameKey, "title", Get(r, "name")) + MapIf(TitleKey, "subtitle", Headline(r))
    + (if JsTruthy(Get(r, "summary")) then [FieldMapping(SummaryKey, "subtitle", Get(r, "summary"), false)] else [])
  }

  /** The social-link mappings under `prefix` (`social_links.` or `contact_info.`). */
  function SocialMappings(r: Value, prefix: string): (ms: seq<FieldMapping>)
    ensures DistinctFields(ms) && ValuesTruthy(ms) && AllEnabled(ms)
    ensures FieldsIn(ms, {LinkedinKey, GithubKey, WebsiteKey})
  {
    MapIf(LinkedinKey, prefix + KeyName(LinkedinKey), Linkedin(r)) + MapIf(GithubKey, prefix + KeyName(GithubKey), Github(r))
    + MapIf(WebsiteKey, prefix + KeyName(WebsiteKey), Website(r))
  }

  /** The object the about card keeps its links in. */
  const SocialLinks: string := "social_links."

  /** Two optional mappings of different fields. */
  function MapPair(ka: ResumeKey, fa: string, va: Value, kb: ResumeKey, fb: string, vb: Value): (ms: seq<FieldMapping>)
    requires ka != kb
    ensures DistinctFields(ms) && ValuesTruthy(ms) && AllEnabled(ms) && FieldsIn(ms, {ka, kb})
    ensures ms == MapIf(ka, fa, va) + MapIf(kb, fb, vb)
  {
    MapIf(ka, fa, va) + MapIf(kb, fb, vb)
  }

  /** The about card's own fields: name, title, bio and email. */
  function AboutHead(r: Value): (ms: seq<FieldMapping>)
    ensures DistinctFields(ms) && ValuesTruthy(ms) && AllEnabled(ms)
    ensures FieldsIn(ms, {NameKey, TitleKey, SummaryKey, EmailKey})
  {
    var a := MapPair(NameKey, "name", Get(r, "name"), TitleKey, "title", Get(r, "title"));
    var b := MapPair(SummaryKey, "bio", Get(r, "summary"), EmailKey, SocialLinks + KeyName(EmailKey), Get(r, "email"));
    DistinctAppend(a, {NameKey, TitleKey}, b, {SummaryKey, EmailKey});
    a + b
  }

  function AboutMappings(r: Value): (ms: seq<FieldMapping>)
    ensures DistinctFields(ms) && ValuesTruthy(ms) && AllEnabled(ms)
  {
    var head := AboutHead(r);
    var social := SocialMappings(r, SocialLinks);
    DistinctAppend(head, {NameKey, TitleKey, SummaryKey, EmailKey}, social, {LinkedinKey, GithubKey, WebsiteKey});
    head + social
  }

  /** The object the contact form keeps its contact fields in. */
  const ContactInfo: string := "contact_info."

  /** The contact-form mappings of the contact fields (the title mapping apart). */
  function ContactInfoMappings(r: Value): (ms: seq<FieldMapping>)
    ensures DistinctFields(ms) && ValuesTruthy(ms) && AllEnabled(ms)
    ensures FieldsIn(ms, {EmailKey, PhoneKey, LocationKey, LinkedinKey, GithubKey, WebsiteKey})
  {
    var pair := MapPair(EmailKey, ContactInfo + KeyName(EmailKey), Get(r, "email"),
                        PhoneKey, ContactInfo + KeyName(PhoneKey), Get(r, "phone"));
    var loc := MapIf(LocationKey, ContactInfo + KeyName(LocationKey), Location(r));
    DistinctAppend(pair, {EmailKey, PhoneKey}, loc, {LocationKey});
    var head := pair + loc;
    var social := SocialMappings(r, ContactInfo);
    DistinctAppend(head, {EmailKey, PhoneKey, LocationKey}, social, {LinkedinKey, GithubKey, WebsiteKey});
    head + social
  }

  /** The contact form's "Contact <name>" title and its contact fields. */
  function ContactMappings(r: Value, show: Value -> string): (ms: seq<FieldMapping>)
    ensures DistinctFields(ms) && ValuesTruthy(ms) && AllEnabled(ms)
  {
    var title := if JsTruthy(Get(r, "name")) then [FieldMapping(NameKey, "title", Str("Contact " + JsString(Get(r, "name"), show)), true)] else [];
    var info := ContactInfoMappings(r);
    DistinctAppend(title, {NameKey}, info, {EmailKey, PhoneKey, LocationKey, LinkedinKey, GithubKey, WebsiteKey});
    title + info
  }

  /** The skills cloud's mapping: the normalised skills, when there are any. */
  function SkillsMappings(r: Value, show: Value -> string): (ms: seq<FieldMapping>)
    ensures DistinctFields(ms) && ValuesTruthy(ms) && AllEnabled(ms)
  {
    var skills := NormalizeResumeSkills(Get(r, "skills"), show);
    OneIf(|skills| > 0, FieldMapping(SkillsKey, "skills", Arr(Strs(skills)), true))
  }

  /** A single enabled mapping with a truthy value, present only when `present`. */
  function OneIf(present: bool, m: FieldMapping): (ms: seq<FieldMapping>)
    requires m.enabled && JsTruthy(m.value)
    ensures DistinctFields(ms) && ValuesTruthy(ms) && AllEnabled(ms)
    ensures present ==> ms == [m]
    ensures !present ==> ms == []
  {
    if present then [m] else []
  }

  /** The timeline's mapping: the converted experience, when any entry has content. */
  function TimelineMappings(r: Value, show: Value -> string): (ms: seq<FieldMapping>)
    ensures DistinctFields(ms) && ValuesTruthy(ms) && AllEnabled(ms)
  {
    var timeline := ConvertExperienceToTimeline(Get(r, "experience"), show);
    OneIf(|timeline| > 0,
          FieldMapping(ExperienceKey, "experiences", Arr(seq(|timeline|, i requires 0 <= i < |timeline| => TimelineValue(timeline[i]))), true))
  }

  /** The project grid's mapping: every experience as a project (`experience || []`). */
  function ProjectMappings(r: Value, show: Value -> string): (ms: seq<FieldMapping>)
    ensures DistinctFields(ms) && ValuesTruthy(ms) && AllEnabled(ms)
  {
    var projects := ConvertExperienceToProjects(JsOr(Get(r, "experience"), Arr([])), [], show);
    OneIf(|projects| > 0, FieldMapping(ExperienceKey, "projects", Arr(ProjectValues(projects)), true))
  }

  /** The projects as the objects the grid reads. */
  function ProjectValues(ps: seq<ExperienceProject>): (vs: seq<Value>)
    ensures |vs| == |ps|
    ensures forall i :: 0 <= i < |ps| ==> vs[i] == ProjectValue(ps[i])
  {
    seq(|ps|, i requires 0 <= i < |ps| => ProjectValue(ps[i]))
  }

  /** `getDefaultFieldMappings`: the mappings each supported component type proposes; a null
      resume or an unsupported type gives none. Fields are never repeated, values are always
      truthy, and the only disabled mapping is the hero banner's summary. */
  function GetDefaultFieldMappings(componentType: string, r: Value, show: Value -> string): (ms: seq<FieldMapping>)
    ensures !JsTruthy(r) || MappedTypeOf(componentType).None? ==> ms == []
    ensures DistinctFields(ms) && ValuesTruthy(ms)
    ensures forall i :: 0 <= i < |ms| && !ms[i].enabled ==>
              MappedTypeOf(componentType) == Some(HeroBanner) && ms[i].resumeField == SummaryKey
  {
    if !JsTruthy(r) then []
    else
      match MappedTypeOf(componentType)
      case None => []
      case Some(t) =>
        match t
        case HeroBanner => HeroMappings(r)
        case AboutMeCard => AboutMappings(r)
        case SkillsCloud => SkillsMappings(r, show)
        case ExperienceTimeline => TimelineMappings(r, show)
        case ProjectGrid => ProjectMappings(r, show)
        case ContactForm => ContactMappings(r, show)
  }

  /** A mapping list mirrors a field list: the same keys and values, each written under
      `contact_info.` and its name. */
  predicate ContactAgree(fs: seq<ResumeField>, ms: seq<FieldMapping>) {
    |ms| == |fs| && forall i :: 0 <= i < |ms| ==> ms[i] == ContactMapping(fs[i])
  }

  /** The contact-form mapping of a listed field: its value under `contact_info.` and its name. */
  function ContactMapping(f: ResumeField): FieldMapping {
    FieldMapping(f.key, ContactInfo + KeyName(f.key), f.value, true)
  }

  lemma MapListedAgree(key: ResumeKey, v: Value)
    ensures ContactAgree(Listed(key, v, TextField), MapIf(key, ContactInfo + KeyName(key), v))
  {
  }

  lemma ContactAgreeAppend(fa: seq<ResumeField>, ma: seq<FieldMapping>, fb: seq<ResumeField>, mb: seq<FieldMapping>)
    requires ContactAgree(fa, ma) && ContactAgree(fb, mb)
    ensures ContactAgree(fa + fb, ma + mb)
  {
    forall i | 0 <= i < |ma + mb| ensures (ma + mb)[i] == ContactMapping((fa + fb)[i]) {
      if i < |ma| {
        assert (ma + mb)[i] == ma[i] && (fa + fb)[i] == fa[i];
      } else {
        assert (ma + mb)[i] == mb[i - |ma|] && (fa + fb)[i] == fb[i - |fa|];
      }
    }
  }

  /** The contact form proposes exactly the contact fields the catalogue lists, in the same
      order, each under `contact_info.` with the same value. */
  lemma {:induction false} ContactFormMatchesCatalogue(r: Value)
    requires JsTruthy(r)
    ensures ContactAgree(GetAvailableResumeFields(r).contact, ContactInfoMappings(r))
  {
    MapListedAgree(EmailKey, Get(r, "email"));
    MapListedAgree(PhoneKey, Get(r, "phone"));
    MapListedAgree(LocationKey, Location(r));
    MapListedAgree(LinkedinKey, Linkedin(r));
    MapListedAgree(GithubKey, Github(r));
    MapListedAgree(WebsiteKey, Website(r));
    var e := Listed(EmailKey, Get(r, "email"), TextField);
    var p := Listed(PhoneKey, Get(r, "phone"), TextField);
    var l := Listed(LocationKey, Location(r), TextField);
    var li := Listed(LinkedinKey, Linkedin(r), TextField);
    var g := Listed(GithubKey, Github(r), TextField);
    var w := Listed(WebsiteKey, Website(r), TextField);
    var me := MapIf(EmailKey, ContactInfo + KeyName(EmailKey), Get(r, "email"));
    var mp := MapIf(PhoneKey, ContactInfo + KeyName(PhoneKey), Get(r, "phone"));
    var ml := MapIf(LocationKey, ContactInfo + KeyName(LocationKey), Location(r));
    var mli := MapIf(LinkedinKey, ContactInfo + KeyName(LinkedinKey), Linkedin(r));
    var mg := MapIf(GithubKey, ContactInfo + KeyName(GithubKey), Github(r));
    var mw := MapIf(WebsiteKey, ContactInfo + KeyName(WebsiteKey), Website(r));
    ContactAgreeAppend(e, me, p, mp);
    ContactAgreeAppend(e + p, me + mp, l, ml);
    ContactAgreeAppend(li, mli, g, mg);
    ContactAgreeAppend(li + g, mli + mg, w, mw);
    ContactAgreeAppend(e + p + l, me + mp + ml, li + g + w, mli + mg + mw);
  }

  // ---------------------------------------------------------------------------------------
  // Preview and application

  /** One mapping written into `target` along its dotted component field. */
  function Assign(target: Value, m: FieldMapping, skipEmpty: bool): (r: Value)
    ensures target.Obj? ==> r.Obj?
  {
    SetPath(target, Split(m.componentField, '.'), m.value, skipEmpty)
  }

  /** The mappings written one after another, later ones overwriting earlier ones. */
  function AssignAll(target: Value, ms: seq<FieldMapping>, skipEmpty: bool): (r: Value)
    ensures target.Obj? ==> r.Obj?
    decreases |ms|
  {
    if |ms| == 0 then target
    else Assign(AssignAll(target, ms[..|ms| - 1], skipEmpty), ms[|ms| - 1], skipEmpty)
  }

  /** `selectedFields[f] !== false`: a field is left out only when explicitly deselected. The
      selection's keys are the field names, modelled by the keys they name. */
  predicate Included(selected: map<ResumeKey, bool>, f: ResumeKey) {
    !(f in selected && !selected[f])
  }

  /** The test the preview as written applies. */
  function IncludedBy(selected: map<ResumeKey, bool>): FieldMapping -> bool {
    (m: FieldMapping) => Included(selected, m.resumeField)
  }

  /** The test the intended preview applies. */
  function ShownBy(selected: map<ResumeKey, bool>): FieldMapping -> bool {
    (m: FieldMapping) => m.enabled && Included(selected, m.resumeField)
  }

  /** `previewFieldMapping` as written: every default mapping the selection does not exclude
      is written, whether or not it is enabled. */
  function PreviewFieldMappingAsWritten(componentType: string, r: Value, selected: map<ResumeKey, bool>,
                                        show: Value -> string): (p: Value)
    ensures p.Obj?
    ensures !JsTruthy(r) ==> p == Obj(map[])
  {
    if !JsTruthy(r) then Obj(map[])
    else
      var ms := GetDefaultFieldMappings(componentType, r, show);
      AssignAll(Obj(map[]), Filter(ms, IncludedBy(selected)), false)
  }

  /** The preview as intended: only enabled mappings the selection does not exclude. */
  function PreviewFieldMapping(componentType: string, r: Value, selected: map<ResumeKey, bool>,
                               show: Value -> string): (p: Value)
    ensures p.Obj?
    ensures !JsTruthy(r) ==> p == Obj(map[])
  {
    if !JsTruthy(r) then Obj(map[])
    else
      var ms := GetDefaultFieldMappings(componentType, r, show);
      AssignAll(Obj(map[]), Filter(ms, ShownBy(selected)), false)
  }

  /** The selection the builder passes: each mapping's field set to whether it is enabled
      (a later mapping of the same field overriding an earlier one). */
  function SelectionOf(ms: seq<FieldMapping>): (sel: map<ResumeKey, bool>)
    ensures forall i :: 0 <= i < |ms| ==> ms[i].resumeField in sel
    ensures DistinctFields(ms) ==> forall i :: 0 <= i < |ms| ==> sel[ms[i].resumeField] == ms[i].enabled
    decreases |ms|
  {
    if |ms| == 0 then map[]
    else
      var init := ms[..|ms| - 1];
      var sel := SelectionOf(init)[ms[|ms| - 1].resumeField := ms[|ms| - 1].enabled];
      assert forall i :: 0 <= i < |init| ==> init[i] == ms[i];
      sel
  }

  /** With the selection the builder derives from the mappings, the preview as written and
      the intended preview agree: the builder's own calls never show a disabled mapping. */
  lemma BuilderSelectionHidesDisabled(componentType: string, r: Value, show: Value -> string)
    ensures var sel := SelectionOf(GetDefaultFieldMappings(componentType, r, show));
            PreviewFieldMappingAsWritten(componentType, r, sel, show) == PreviewFieldMapping(componentType, r, sel, show)
  {
    if JsTruthy(r) {
      var ms := GetDefaultFieldMappings(componentType, r, show);
      var sel := SelectionOf(ms);
      FilterCongruent(ms, IncludedBy(sel), ShownBy(sel));
    }
  }

  /** The hero resume used to exhibit the difference: a title and a summary. */
  function HeroResume(): Value {
    Obj(map["title" := Str("Engineer"), "summary" := Str("Long text")])
  }

  /** As written, a preview without a selection (what `mapResumeToComponent` passes by default)
      writes the disabled summary mapping after the headline, so the summary replaces it. */
  lemma PreviewAsWrittenShowsSummary(show: Value -> string)
    ensures Get(PreviewFieldMappingAsWritten("hero_banner", HeroResume(), map[], show), "subtitle") == Str("Long text")
  {
    var ms := GetDefaultFieldMappings("hero_banner", HeroResume(), show);
    HeroResumeMappings(show);
    FilterAll(ms, IncludedBy(map[]));
    LastPlainWriteWins(Obj(map[]), ms, false);
  }

  /** A hero banner's default mappings are the hero mappings. */
  lemma HeroDefaults(r: Value, show: Value -> string)
    requires JsTruthy(r)
    ensures GetDefaultFieldMappings("hero_banner", r, show) == HeroMappings(r)
  {
    MappedTypeNamesRoundTrip(HeroBanner);
  }

  /** The hero mappings of the example resume: the enabled headline, then the disabled summary. */
  lemma HeroResumeMappings(show: Value -> string)
    ensures GetDefaultFieldMappings("hero_banner", HeroResume(), show)
            == [FieldMapping(TitleKey, "subtitle", Str("Engineer"), true), FieldMapping(SummaryKey, "subtitle", Str("Long text"), false)]
  {
    var r := HeroResume();
    assert Get(r, "name") == Undefined;
    assert Headline(r) == Str("Engineer");
    MappedTypeNamesRoundTrip(HeroBanner);
  }

  /** A last mapping written to a plain (dot-free) field is what that field holds. */
  lemma LastPlainWriteWins(target: Value, ms: seq<FieldMapping>, skipEmpty: bool)
    requires |ms| >= 1 && target.Obj?
    requires '.' !in ms[|ms| - 1].componentField && ms[|ms| - 1].componentField != ""
    ensures Get(AssignAll(target, ms, skipEmpty), ms[|ms| - 1].componentField) == ms[|ms| - 1].value
  {
    SplitPlainField(ms[|ms| - 1].componentField);
  }

  /** The hero mappings the intended preview writes end with the headline. */
  lemma HeroShownEndsWithHeadline(r: Value, selected: map<ResumeKey, bool>)
    requires JsTruthy(Headline(r)) && Included(selected, TitleKey)
    ensures var shown := Filter(HeroMappings(r), ShownBy(selected));
            |shown| >= 1 && shown[|shown| - 1] == FieldMapping(TitleKey, "subtitle", Headline(r), true)
  {
    var nameM := MapIf(NameKey, "title", Get(r, "name"));
    var titleM := FieldMapping(TitleKey, "subtitle", Headline(r), true);
    var summaryM := if JsTruthy(Get(r, "summary")) then [FieldMapping(SummaryKey, "subtitle", Get(r, "summary"), false)] else [];
    assert HeroMappings(r) == nameM + [titleM] + summaryM;
    FilterLast(nameM, titleM, summaryM, ShownBy(selected));
  }

  /** The intended preview of a hero banner always shows the headline as subtitle, unless the
      title field is deselected. */
  lemma HeroPreviewShowsHeadline(r: Value, selected: map<ResumeKey, bool>, show: Value -> string)
    requires JsTruthy(r) && JsTruthy(Headline(r)) && Included(selected, TitleKey)
    ensures Get(PreviewFieldMapping("hero_banner", r, selected, show), "subtitle") == Headline(r)
  {
    HeroShownEndsWithHeadline(r, selected);
    HeroDefaults(r, show);
    LastPlainWriteWins(Obj(map[]), Filter(HeroMappings(r), ShownBy(selected)), false);
  }

  predicate IsEnabled(m: FieldMapping) {
    m.enabled
  }

  /** The mappings `applyFieldMapping` writes. */
  predicate Applies(m: FieldMapping) {
    m.enabled && JsTruthy(m.value)
  }

  /** `applyFieldMapping`: a null resume or no mappings leaves the content as it is;
      otherwise every enabled mapping with a truthy value is written into a copy, skipping
      empty intermediate keys. */
  function ApplyFieldMapping(content: map<string, Value>, r: Value, ms: seq<FieldMapping>): (c: map<string, Value>)
    ensures !JsTruthy(r) || |ms| == 0 ==> c == content
    ensures content.Keys <= c.Keys
  {
    if !JsTruthy(r) || |ms| == 0 then content
    else
      var applied := Filter(ms, Applies);
      AssignAllKeepsKeys(Obj(content), applied);
      AssignAll(Obj(content), applied, true).fields
  }

  /** No mapping in `ms` writes into the top-level key `k`. */
  predicate Untargeted(ms: seq<FieldMapping>, k: string) {
    forall i :: 0 <= i < |ms| ==> TopKey(Split(ms[i].componentField, '.'), true) != Some(k)
  }

  lemma {:induction false} AssignAllKeepsKeys(target: Value, ms: seq<FieldMapping>)
    requires target.Obj?
    ensures target.fields.Keys <= AssignAll(target, ms, true).fields.Keys
    decreases |ms|
  {
    if |ms| > 0 {
      AssignAllKeepsKeys(target, ms[..|ms| - 1]);
      var before := AssignAll(target, ms[..|ms| - 1], true);
      var keys := Split(ms[|ms| - 1].componentField, '.');
      forall k | k in target.fields
        ensures k in AssignAll(target, ms, true).fields
      {
        if TopKey(keys, true) != Some(k) {
          SetPathFrame(before, keys, ms[|ms| - 1].value, true, k);
        } else {
          TopKeyWritten(before, keys, ms[|ms| - 1].value, true);
        }
      }
    }
  }

  /** The key a write touches is present afterwards. */
  lemma {:induction false} TopKeyWritten(cur: Value, keys: seq<string>, v: Value, skipEmpty: bool)
    requires |keys| >= 1 && cur.Obj? && TopKey(keys, skipEmpty).Some?
    ensures Has(SetPath(cur, keys, v, skipEmpty), TopKey(keys, skipEmpty).value)
    decreases |keys|
  {
    if |keys| > 1 && skipEmpty && keys[0] == "" {
      TopKeyWritten(cur, keys[1..], v, skipEmpty);
    }
  }

  /** Applying writes into a copy: a top-level key that no applied mapping targets keeps its
      value. */
  lemma {:induction false} AssignAllFrame(target: Value, ms: seq<FieldMapping>, k: string)
    requires target.Obj? && Untargeted(ms, k)
    ensures Get(AssignAll(target, ms, true), k) == Get(target, k)
    decreases |ms|
  {
    if |ms| > 0 {
      AssignAllFrame(target, ms[..|ms| - 1], k);
      SetPathFrame(AssignAll(target, ms[..|ms| - 1], true), Split(ms[|ms| - 1].componentField, '.'),
                   ms[|ms| - 1].value, true, k);
    }
  }

  /** Content under a top-level key that no enabled, truthy mapping targets is unchanged. */
  lemma ApplyLeavesUntargetedKeys(content: map<string, Value>, r: Value, ms: seq<FieldMapping>, k: string)
    requires k in content && Untargeted(Filter(ms, Applies), k)
    ensures k in ApplyFieldMapping(content, r, ms) && ApplyFieldMapping(content, r, ms)[k] == content[k]
  {
    if JsTruthy(r) && |ms| > 0 {
      AssignAllFrame(Obj(content), Filter(ms, Applies), k);
    }
  }

  /** Disabled mappings make no difference to the result. */
  lemma ApplyIgnoresDisabled(content: map<string, Value>, r: Value, ms: seq<FieldMapping>)
    ensures ApplyFieldMapping(content, r, ms) == ApplyFieldMapping(content, r, Filter(ms, IsEnabled))
  {
    var enabled := Filter(ms, IsEnabled);
    FilterFilter(ms, IsEnabled, Applies, Applies);
    assert Filter(enabled, Applies) == Filter(ms, Applies);
  }

  /** The last applied mapping can be read back along its path when none of its keys is empty. */
  lemma ApplyThenRead(content: map<string, Value>, r: Value, ms: seq<FieldMapping>, m: FieldMapping)
    requires JsTruthy(r) && Applies(m)
    requires Reachable(Split(m.componentField, '.'), true)
    ensures GetPath(Obj(ApplyFieldMapping(content, r, ms + [m])), Split(m.componentField, '.')) == m.value
  {
    FilterAppend(ms, [m], Applies);
    var before := Filter(ms, Applies);
    AssignAllLast(Obj(content), before, m, true);
    SetThenGet(AssignAll(Obj(content), before, true), Split(m.componentField, '.'), m.value, true);
  }

  /** Writing a list followed by one more mapping is writing the list, then that mapping. */
  lemma AssignAllLast(target: Value, ms: seq<FieldMapping>, m: FieldMapping, skipEmpty: bool)
    ensures AssignAll(target, ms + [m], skipEmpty) == Assign(AssignAll(target, ms, skipEmpty), m, skipEmpty)
  {
    assert (ms + [m])[..|ms|] == ms;
  }

  /** `mapResumeToComponent` as written, over the preview as written: without a resume, the
      existing content (or {}); otherwise the preview, merged over the existing content when
      asked to, preview keys winning whole. */
  function MapResumeToComponentAsWritten(componentType: string, r: Value, selected: map<ResumeKey, bool>, merge: bool,
                                         existing: Option<map<string, Value>>, show: Value -> string): (c: map<string, Value>)
    ensures !JsTruthy(r) ==> c == existing.GetOr(map[])
    ensures JsTruthy(r) && !merge ==> c == PreviewFieldMappingAsWritten(componentType, r, selected, show).fields
    ensures JsTruthy(r) && merge ==>
              var p := PreviewFieldMappingAsWritten(componentType, r, selected, show).fields;
              c.Keys == existing.GetOr(map[]).Keys + p.Keys
              && (forall k :: k in p ==> c[k] == p[k])
              && (forall k :: k in existing.GetOr(map[]) && k !in p ==> c[k] == existing.GetOr(map[])[k])
  {
    if !JsTruthy(r) then existing.GetOr(map[])
    else
      var p := PreviewFieldMappingAsWritten(componentType, r, selected, show).fields;
      if merge then existing.GetOr(map[]) + p else p
  }

  /** `mapResumeToComponent` over the corrected preview: without a resume, the existing content (or {}); otherwise the
      preview, merged over the existing content when asked to, preview keys winning whole —
      nested objects are replaced, not merged. */
  function MapResumeToComponent(componentType: string, r: Value, selected: map<ResumeKey, bool>, merge: bool,
                                existing: Option<map<string, Value>>, show: Value -> string): (c: map<string, Value>)
    ensures !JsTruthy(r) ==> c == existing.GetOr(map[])
    ensures JsTruthy(r) && !merge ==> c == PreviewFieldMapping(componentType, r, selected, show).fields
    ensures JsTruthy(r) && merge ==>
              var p := PreviewFieldMapping(componentType, r, selected, show).fields;
              c.Keys == existing.GetOr(map[]).Keys + p.Keys
              && (forall k :: k in p ==> c[k] == p[k])
              && (forall k :: k in existing.GetOr(map[]) && k !in p ==> c[k] == existing.GetOr(map[])[k])
  {
    if !JsTruthy(r) then existing.GetOr(map[])
    else
      var p := PreviewFieldMapping(componentType, r, selected, show).fields;
      if merge then existing.GetOr(map[]) + p else p
  }
}
