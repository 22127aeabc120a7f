/** The front end's validation and normalisation of component content before a template
    renders it: skills lists, projects and blog posts as the templates expect them, URLs and
    email addresses, and the per-type rewriting of a component's content. Inputs are the
    stored JSON (`Value`); JavaScript's `String()`, `Number()` and the URL parser are oracles. */
module ComponentData {
  import opened Base
  import opened Strings
  import opened Seqs
  import opened Json
  import opened JsText
  import ResumeFieldMapper

  // ---------------------------------------------------------------------------------------
  // Skills

  /** A string with no white space at either end. */
  predicate Trimmed(x: string) {
    JsTrim(x) == x
  }

  /** One entry of a skills array: a string trimmed; an object with a truthy `name`, the
      name's text trimmed; anything else its `String()` text, trimmed. */
  function SkillEntryText(x: Value, show: Value -> string): (t: string)
    ensures Trimmed(t)
  {
    var name := Get(x, "name");
    var raw := JsString(if JsTruthy(name) then name else x, show);
    TrimIdempotent(raw, IsJsSpace);
    JsTrim(raw)
  }

  /** The texts of a skills array's entries, before empty ones are dropped. */
  function SkillEntryTexts(items: seq<Value>, show: Value -> string): (ts: seq<string>)
    ensures |ts| == |items|
    ensures forall i :: 0 <= i < |items| ==> ts[i] == SkillEntryText(items[i], show)
  {
    seq(|items|, i requires 0 <= i < |items| => SkillEntryText(items[i], show))
  }

  /** `normalizeSkills`: a falsy value gives []; an array has its entries' texts trimmed and
      the empty ones dropped; a string is split on ',' with the pieces trimmed and the empty
      ones dropped; any other value gives []. */
  function NormalizeSkills(skills: Value, show: Value -> string): (r: seq<string>)
    ensures forall i :: 0 <= i < |r| ==> r[i] != "" && Trimmed(r[i])
    ensures !JsTruthy(skills) || !(skills.Arr? || skills.Str?) ==> r == []
    ensures skills.Str? ==> forall i :: 0 <= i < |r| ==> ',' !in r[i]
    ensures skills.Arr? ==> |r| <= |skills.items|
  {
    if !JsTruthy(skills) then []
    else if skills.Arr? then NonEmpty(SkillEntryTexts(skills.items, show))
    else if skills.Str? then NonEmpty(StringSkillPieces(skills.s))
    else []
  }

  /** A skills string's comma-separated pieces, trimmed, before empty ones are dropped. */
  function StringSkillPieces(s: string): (ps: seq<string>)
    ensures forall i :: 0 <= i < |ps| ==> Trimmed(ps[i]) && ',' !in ps[i]
  {
    var ps := SplitTrim(s);
    forall i | 0 <= i < |ps|
      ensures Trimmed(ps[i])
    {
      TrimIdempotent(Split(s, ',')[i], IsJsSpace);
    }
    ps
  }

  /** On a string, or an array of strings, the renderer's skill normalisation agrees with the
      resume mapper's. */
  lemma SkillsAgreeWithResumeMapper(skills: Value, show: Value -> string)
    requires skills.Str? || (skills.Arr? && forall i :: 0 <= i < |skills.items| ==> skills.items[i].Str?)
    ensures NormalizeSkills(skills, show) == ResumeFieldMapper.NormalizeResumeSkills(skills, show)
  {
    if skills.Arr? {
      var ours := SkillEntryTexts(skills.items, show);
      var theirs := ResumeFieldMapper.SkillPieces(skills, show);
      assert ours == theirs by {
        forall i | 0 <= i < |ours|
          ensures ours[i] == theirs[i]
        {
          assert Get(skills.items[i], "name") == Undefined;
        }
      }
    }
  }

  /** An array of `{name}` objects normalises to the names, when they are non-empty and trimmed. */
  lemma NamedSkillsGiveNames(names: seq<string>, show: Value -> string)
    requires forall i :: 0 <= i < |names| ==> names[i] != "" && Trimmed(names[i])
    ensures NormalizeSkills(Arr(NamedEntries(names)), show) == names
  {
    var items := NamedEntries(names);
    var ts := SkillEntryTexts(items, show);
    assert ts == names by {
      forall i | 0 <= i < |names|
        ensures ts[i] == names[i]
      {
        NamedEntryText(names[i], show);
      }
    }
    assert NormalizeSkills(Arr(items), show) == NonEmpty(ts);
    NonEmptyKeepsAll(names);
  }

  /** A `{name}` entry's text is the name trimmed. */
  lemma NamedEntryText(x: string, show: Value -> string)
    requires x != ""
    ensures SkillEntryText(Obj(map["name" := Str(x)]), show) == JsTrim(x)
  {
    assert Get(Obj(map["name" := Str(x)]), "name") == Str(x);
  }

  /** `names.map(name => ({name}))`. */
  function NamedEntries(names: seq<string>): (r: seq<Value>)
    ensures |r| == |names|
    ensures forall i :: 0 <= i < |names| ==> r[i] == Obj(map["name" := Str(names[i])])
  {
    seq(|names|, i requires 0 <= i < |names| => Obj(map["name" := Str(names[i])]))
  }

  /** Normalised skills written back as an array normalise to themselves. */
  lemma NormalizeSkillsIdempotent(skills: Value, show: Value -> string)
    ensures NormalizeSkills(Arr(Strs(NormalizeSkills(skills, show))), show) == NormalizeSkills(skills, show)
  {
    CleanSkillsFixed(NormalizeSkills(skills, show), show);
  }

  /** A list of non-empty trimmed names, as an array, normalises to itself. */
  lemma CleanSkillsFixed(r: seq<string>, show: Value -> string)
    requires forall i :: 0 <= i < |r| ==> r[i] != "" && Trimmed(r[i])
    ensures NormalizeSkills(Arr(Strs(r)), show) == r
  {
    var ts := SkillEntryTexts(Strs(r), show);
    assert ts == r by {
      forall i | 0 <= i < |r|
        ensures ts[i] == r[i]
      {
        StringEntryText(r[i], show);
      }
    }
    NonEmptyKeepsAll(r);
  }

  /** A string entry's text is the string trimmed. */
  lemma StringEntryText(x: string, show: Value -> string)
    ensures SkillEntryText(Str(x), show) == JsTrim(x)
  {
    assert Get(Str(x), "name") == Undefined;
  }

  // ---------------------------------------------------------------------------------------
  // Projects

  /** A validated project as the templates read it. `id` is `Number(project.id)`. */
  datatype Project = Project(id: Value, title: string, description: string, shortDescription: Option<string>,
                             image: Value, githubUrl: Value, liveUrl: Value, technologies: seq<string>)

  /** Characters of a description kept in a derived short description. */
  const SummaryLength: nat := 200

  /** `v.length > n`: the length of a string or array; an object's own `length` field when it
      is a number; `undefined` (never greater) for anything else. */
  predicate LongerThan(v: Value, n: nat) {
    match v
    case Str(s) => |s| > n
    case Arr(items) => |items| > n
    case Obj(_) =>
      var len := Get(v, "length");
      (len.Num? && len.n > n) || (len.Real? && len.x > n as real)
    case _ => false
  }

  /** The short description: the given one, else the description's first 200 characters, with
      "..." when the description is longer; none when both are falsy. */
  function ShortDescription(short: Value, description: Value, show: Value -> string): (r: Option<string>)
    ensures JsTruthy(short) ==> r == Some(JsString(short, show))
    ensures r.None? <==> !JsTruthy(short) && !JsTruthy(description)
  {
    if JsTruthy(short) then Some(JsString(short, show))
    else if JsTruthy(description) then
      Some(Take(JsString(description, show), SummaryLength) + (if LongerThan(description, SummaryLength) then "..." else ""))
    else None
  }

  /** Of a text description, the derived short description is the text itself up to 200
      characters and otherwise its first 200 characters and "...": never above 203. */
  lemma ShortDescriptionOfText(d: string, show: Value -> string)
    requires d != ""
    ensures var r := ShortDescription(Undefined, Str(d), show);
            r.Some? && |r.value| <= SummaryLength + 3
            && (|d| <= SummaryLength ==> r.value == d)
            && (|d| > SummaryLength ==> r.value == d[..SummaryLength] + "...")
  {
  }

  /** `validateProject`: falsy values, numbers and anything not an object give null, and so
      does an object whose `id` or `title` is falsy; otherwise the fields are normalised, each
      link falling back to its alternative keys. */
  function ValidateProject(p: Value, show: Value -> string, number: Value -> Value): (r: Option<Project>)
    ensures r.Some? <==> p.Obj? && JsTruthy(Get(p, "id")) && JsTruthy(Get(p, "title"))
    ensures r.Some? ==> r.value.id == number(Get(p, "id")) && r.value.title == JsString(Get(p, "title"), show)
    ensures r.Some? ==> r.value.shortDescription == ShortDescription(Get(p, "short_description"), Get(p, "description"), show)
  {
    if !JsTruthy(p) then None
    else if p.Num? || p.Real? then None
    else if p.Obj? || p.Arr? then
      if !JsTruthy(Get(p, "id")) || !JsTruthy(Get(p, "title")) then None
      else
        Some(Project(
          number(Get(p, "id")),
          JsString(JsOr(Get(p, "title"), Str("Untitled Project")), show),
          JsString(JsOr(Get(p, "description"), JsOr(Get(p, "short_description"), Str(""))), show),
          ShortDescription(Get(p, "short_description"), Get(p, "description"), show),
          JsOr(Get(p, "image"), Null),
          JsOr(Get(p, "github_url"), JsOr(Get(p, "github"), Null)),
          JsOr(Get(p, "live_url"), JsOr(Get(p, "website"), JsOr(Get(p, "live"), Null))),
          NormalizeSkills(JsOr(Get(p, "technologies"), JsOr(Get(p, "tags"), Arr([]))), show)))
    else None
  }

  /** Each link of a validated project is the first truthy one of its keys, else null: the
      source link, then `github_url` → `github`, and `live_url` → `website` → `live`. */
  lemma ProjectLinksFallBack(p: Value, show: Value -> string, number: Value -> Value)
    requires ValidateProject(p, show, number).Some?
    ensures var q := ValidateProject(p, show, number).value;
            (JsTruthy(Get(p, "github_url")) ==> q.githubUrl == Get(p, "github_url"))
            && (!JsTruthy(Get(p, "github_url")) && JsTruthy(Get(p, "github")) ==> q.githubUrl == Get(p, "github"))
            && (!JsTruthy(Get(p, "github_url")) && !JsTruthy(Get(p, "github")) ==> q.githubUrl == Null)
            && (JsTruthy(Get(p, "live_url")) ==> q.liveUrl == Get(p, "live_url"))
            && (!JsTruthy(Get(p, "live_url")) && JsTruthy(Get(p, "website")) ==> q.liveUrl == Get(p, "website"))
            && (!JsTruthy(Get(p, "live_url")) && !JsTruthy(Get(p, "website")) && JsTruthy(Get(p, "live")) ==> q.liveUrl == Get(p, "live"))
            && (!JsTruthy(Get(p, "live_url")) && !JsTruthy(Get(p, "website")) && !JsTruthy(Get(p, "live")) ==> q.liveUrl == Null)
  {
  }

  /** `validateProject` with its oracles fixed, for use as an element validator. */
  function ProjectValidator(show: Value -> string, number: Value -> Value): Value -> Option<Project> {
    p => ValidateProject(p, show, number)
  }

  /** `validateProjects`: anything but an array gives []; an array gives the projects that
      validate, in order. */
  function ValidateProjects(v: Value, show: Value -> string, number: Value -> Value): (r: seq<Project>)
    ensures !v.Arr? ==> r == []
    ensures v.Arr? ==> r == KeepSome(v.items, ProjectValidator(show, number))
  {
    // `!x || !Array.isArray(x)`: an array is always truthy, so the array test decides.
    if !v.Arr? then [] else KeepSome(v.items, ProjectValidator(show, number))
  }

  /** Exactly the projects that validate on their own come out of the list, in input order. */
  lemma ValidateProjectsExactly(items: seq<Value>, more: seq<Value>, show: Value -> string, number: Value -> Value)
    ensures var r := ValidateProjects(Arr(items), show, number);
            |r| <= |items|
            && (forall q :: q in r <==> exists i :: 0 <= i < |items| && ValidateProject(items[i], show, number) == Some(q))
    ensures ValidateProjects(Arr(items + more), show, number)
            == ValidateProjects(Arr(items), show, number) + ValidateProjects(Arr(more), show, number)
  {
    var f := ProjectValidator(show, number);
    forall i | 0 <= i < |items|
      ensures f(items[i]) == ValidateProject(items[i], show, number)
    {
    }
    KeepSomeAppend(items, more, f);
  }

  // ---------------------------------------------------------------------------------------
  // Blog posts

  /** A validated blog post as the templates read it. */
  datatype BlogPost = BlogPost(id: Value, title: string, excerpt: Option<string>, contentMarkdown: Value,
                               featuredImage: Value, published: bool, publishedDate: Value)

  /** `validateBlogPost`: the same rejections as a project; otherwise the fields are normalised,
      each falling back to its alternative key. */
  function ValidateBlogPost(p: Value, show: Value -> string, number: Value -> Value): (r: Option<BlogPost>)
    ensures r.Some? <==> p.Obj? && JsTruthy(Get(p, "id")) && JsTruthy(Get(p, "title"))
    ensures r.Some? ==> r.value.id == number(Get(p, "id")) && r.value.title == JsString(Get(p, "title"), show)
    ensures r.Some? ==> (r.value.excerpt.Some? <==> JsTruthy(Get(p, "excerpt")))
    ensures r.Some? ==> (r.value.published <==> JsTruthy(Get(p, "published")))
  {
    if !JsTruthy(p) then None
    else if p.Num? || p.Real? then None
    else if p.Obj? || p.Arr? then
      if !JsTruthy(Get(p, "id")) || !JsTruthy(Get(p, "title")) then None
      else
        Some(BlogPost(
          number(Get(p, "id")),
          JsString(JsOr(Get(p, "title"), Str("Untitled Post")), show),
          if JsTruthy(Get(p, "excerpt")) then Some(JsString(Get(p, "excerpt"), show)) else None,
          JsOr(Get(p, "content_markdown"), JsOr(Get(p, "content"), Undefined)),
          JsOr(Get(p, "featured_image"), JsOr(Get(p, "image"), Null)),
          JsTruthy(Get(p, "published")),
          JsOr(Get(p, "published_date"), JsOr(Get(p, "created_at"), Undefined))))
    else None
  }

  /** The markdown, image and date of a validated post each come from the first truthy of their
      keys: `content_markdown` → `content`, `featured_image` → `image` (else null), and
      `published_date` → `created_at`. */
  lemma BlogPostFieldsFallBack(p: Value, show: Value -> string, number: Value -> Value)
    requires ValidateBlogPost(p, show, number).Some?
    ensures var q := ValidateBlogPost(p, show, number).value;
            (JsTruthy(Get(p, "content_markdown")) ==> q.contentMarkdown == Get(p, "content_markdown"))
            && (!JsTruthy(Get(p, "content_markdown")) && JsTruthy(Get(p, "content")) ==> q.contentMarkdown == Get(p, "content"))
            && (!JsTruthy(Get(p, "content_markdown")) && !JsTruthy(Get(p, "content")) ==> q.contentMarkdown == Undefined)
            && (JsTruthy(Get(p, "featured_image")) ==> q.featuredImage == Get(p, "featured_image"))
            && (!JsTruthy(Get(p, "featured_image")) && !JsTruthy(Get(p, "image")) ==> q.featuredImage == Null)
            && (!JsTruthy(Get(p, "published_date")) && JsTruthy(Get(p, "created_at")) ==> q.publishedDate == Get(p, "created_at"))
  {
  }

  function BlogPostValidator(show: Value -> string, number: Value -> Value): Value -> Option<BlogPost> {
    p => ValidateBlogPost(p, show, number)
  }

  /** `validateBlogPosts`: anything but an array gives []; an array gives the posts that
      validate, in order. */
  function ValidateBlogPosts(v: Value, show: Value -> string, number: Value -> Value): (r: seq<BlogPost>)
    ensures !v.Arr? ==> r == []
    ensures v.Arr? ==> r == KeepSome(v.items, BlogPostValidator(show, number))
  {
    // `!x || !Array.isArray(x)`: an array is always truthy, so the array test decides.
    if !v.Arr? then [] else KeepSome(v.items, BlogPostValidator(show, number))
  }

  /** Exactly the posts that validate on their own come out of the list, in input order. */
  lemma ValidateBlogPostsExactly(items: seq<Value>, more: seq<Value>, show: Value -> string, number: Value -> Value)
    ensures var r := ValidateBlogPosts(Arr(items), show, number);
            |r| <= |items|
            && (forall q :: q in r <==> exists i :: 0 <= i < |items| && ValidateBlogPost(items[i], show, number) == Some(q))
    ensures ValidateBlogPosts(Arr(items + more), show, number)
            == ValidateBlogPosts(Arr(items), show, number) + ValidateBlogPosts(Arr(more), show, number)
  {
    var f := BlogPostValidator(show, number);
    forall i | 0 <= i < |items|
      ensures f(items[i]) == ValidateBlogPost(items[i], show, number)
    {
    }
    KeepSomeAppend(items, more, f);
  }

  // ---------------------------------------------------------------------------------------
  // URLs and email addresses

  /** Starts with an explicit web scheme. */
  predicate HasScheme(s: string) {
    StartsWith(s, "http://") || StartsWith(s, "https://")
  }

  /** `validateUrl`: a missing, non-string or blank value gives null; a trimmed text without a
      scheme gets "https://" in front with no further check; a text with a scheme is kept
      exactly when the URL parser (`parses`) accepts it. */
  function ValidateUrl(url: Value, parses: string -> bool): (r: Option<string>)
    ensures r.Some? ==> HasScheme(r.value) && r.value != "" && Trimmed(r.value)
    ensures r.None? <==> !url.Str? || JsTrim(url.s) == "" || (HasScheme(JsTrim(url.s)) && !parses(JsTrim(url.s)))
    ensures r.Some? && HasScheme(JsTrim(url.s)) ==> r.value == JsTrim(url.s)
  {
    if !JsTruthy(url) || !url.Str? then None
    else
      var t := JsTrim(url.s);
      TrimIdempotent(url.s, IsJsSpace);
      if t == "" then None
      else if !StartsWith(t, "http://") && !StartsWith(t, "https://") then
        WithSchemeTrimmed(t);
        Some("https://" + t)
      else if parses(t) then Some(t)
      else None
  }

  /** Putting the scheme in front of a trimmed text keeps it trimmed. */
  lemma WithSchemeTrimmed(t: string)
    requires t != "" && Trimmed(t)
    ensures HasScheme("https://" + t) && Trimmed("https://" + t)
  {
    var u := "https://" + t;
    assert "https://" <= u;
    TrimmedEdges(t, IsJsSpace);
    assert u[0] == 'h' && !IsJsSpace('h');
    assert u[|u| - 1] == t[|t| - 1];
    TrimNoEdges(u, IsJsSpace);
  }

  /** A validated URL validates to itself when the parser accepts it: storing the result and
      validating again changes nothing. */
  lemma ValidateUrlIdempotent(url: Value, parses: string -> bool)
    requires ValidateUrl(url, parses).Some? && parses(ValidateUrl(url, parses).value)
    ensures ValidateUrl(Str(ValidateUrl(url, parses).value), parses) == ValidateUrl(url, parses)
  {
  }

  /** A character the pattern class `[^\s@]` accepts. */
  predicate EmailChar(c: char) {
    !IsJsSpace(c) && c != '@'
  }

  /** A non-empty run of such characters. */
  predicate EmailAtom(s: string) {
    |s| > 0 && forall k :: 0 <= k < |s| ==> EmailChar(s[k])
  }

  /** `^[^\s@]+@[^\s@]+\.[^\s@]+$`: no white space anywhere, exactly one '@' with something
      before it, and after it a '.' that neither starts nor ends the domain. */
  predicate EmailShaped(s: string) {
    (forall k :: 0 <= k < |s| ==> !IsJsSpace(s[k]))
    && exists i :: 0 < i < |s| && s[i] == '@'
                   && (forall k :: 0 <= k < |s| && k != i ==> s[k] != '@')
                   && exists j :: i + 1 < j < |s| - 1 && s[j] == '.'
  }

  /** Every string the pattern's three runs spell is accepted. */
  lemma EmailFromAtoms(a: string, b: string, c: string)
    requires EmailAtom(a) && EmailAtom(b) && EmailAtom(c)
    ensures EmailShaped(a + "@" + b + "." + c)
  {
    var s := a + "@" + b + "." + c;
    assert forall k :: 0 <= k < |a| ==> s[k] == a[k];
    assert s[|a|] == '@';
    assert forall k :: |a| < k < |a| + 1 + |b| ==> s[k] == b[k - |a| - 1];
    assert s[|a| + 1 + |b|] == '.';
    assert forall k :: |a| + 1 + |b| < k < |s| ==> s[k] == c[k - |a| - 2 - |b|];
    assert forall k :: 0 <= k < |s| ==> !IsJsSpace(s[k]);
    assert forall k :: 0 <= k < |s| && k != |a| ==> s[k] != '@';
  }

  /** Every accepted string splits into the pattern's three runs. */
  lemma EmailToAtoms(s: string)
    requires EmailShaped(s)
    ensures exists a, b, c :: EmailAtom(a) && EmailAtom(b) && EmailAtom(c) && s == a + "@" + b + "." + c
  {
    var i :| 0 < i < |s| && s[i] == '@' && (forall k :: 0 <= k < |s| && k != i ==> s[k] != '@')
             && exists j :: i + 1 < j < |s| - 1 && s[j] == '.';
    var j :| i + 1 < j < |s| - 1 && s[j] == '.';
    var a, b, c := s[..i], s[i + 1..j], s[j + 1..];
    assert EmailAtom(a) by {
      forall k | 0 <= k < |a|
        ensures EmailChar(a[k])
      {
        assert a[k] == s[k];
      }
    }
    assert EmailAtom(b) by {
      forall k | 0 <= k < |b|
        ensures EmailChar(b[k])
      {
        assert b[k] == s[i + 1 + k];
      }
    }
    assert EmailAtom(c) by {
      forall k | 0 <= k < |c|
        ensures EmailChar(c[k])
      {
        assert c[k] == s[j + 1 + k];
      }
    }
    assert s == a + [s[i]] + b + [s[j]] + c;
    assert [s[i]] == "@" && [s[j]] == ".";
  }

  /** `validateEmail`: a missing, non-string or blank value gives null; otherwise the trimmed
      text when it has the shape of an address, else null. */
  function ValidateEmail(email: Value): (r: Option<string>)
    ensures r.Some? <==> email.Str? && EmailShaped(JsTrim(email.s))
    ensures r.Some? ==> r.value == JsTrim(email.s)
  {
    if !JsTruthy(email) || !email.Str? then None
    else
      var t := JsTrim(email.s);
      if t == "" then None
      else if EmailShaped(t) then Some(t)
      else None
  }

  /** A validated address validates to itself. */
  lemma ValidateEmailIdempotent(email: Value)
    requires ValidateEmail(email).Some?
    ensures ValidateEmail(Str(ValidateEmail(email).value)) == ValidateEmail(email)
  {
    var t := ValidateEmail(email).value;
    TrimNoEdges(t, IsJsSpace);
  }

  // ---------------------------------------------------------------------------------------
  // Component content

  /** The component types whose content is rewritten; every other type's content passes through. */
  datatype ContentKind = HeaderContent | AboutContent | SkillsContent | ProjectsContent | BlogContent
                       | ContactContent | OtherContent

  /** The kind a `component_type` value selects (a strict comparison with each name). */
  function KindOf(t: Value): ContentKind {
    if t == Str("header") then HeaderContent
    else if t == Str("about") then AboutContent
    else if t == Str("skills") then SkillsContent
    else if t == Str("projects") then ProjectsContent
    else if t == Str("blog") then BlogContent
    else if t == Str("contact") then ContactContent
    else OtherContent
  }

  /** An optional text as a field value: the text, or null. */
  function TextOrNull(t: Option<string>): Value {
    if t.Some? then Str(t.value) else Null
  }

  /** An optional text as an object field: the text, or `undefined`. */
  function TextOrUndefined(t: Option<string>): Value {
    if t.Some? then Str(t.value) else Undefined
  }

  /** A validated project as the object the templates receive. */
  function ProjectValue(q: Project): Value {
    Obj(map["id" := q.id, "title" := Str(q.title), "description" := Str(q.description),
            "short_description" := TextOrUndefined(q.shortDescription), "image" := q.image,
            "github_url" := q.githubUrl, "live_url" := q.liveUrl, "technologies" := Arr(Strs(q.technologies))])
  }

  function ProjectValues(qs: seq<Project>): (r: seq<Value>)
    ensures |r| == |qs|
  {
    seq(|qs|, i requires 0 <= i < |qs| => ProjectValue(qs[i]))
  }

  /** A validated post as the object the templates receive. */
  function BlogPostValue(q: BlogPost): Value {
    Obj(map["id" := q.id, "title" := Str(q.title), "excerpt" := TextOrUndefined(q.excerpt),
            "content_markdown" := q.contentMarkdown, "featured_image" := q.featuredImage,
            "published" := Bool(q.published), "published_date" := q.publishedDate])
  }

  function BlogPostValues(qs: seq<BlogPost>): (r: seq<Value>)
    ensures |r| == |qs|
  {
    seq(|qs|, i requires 0 <= i < |qs| => BlogPostValue(qs[i]))
  }

  /** A truthy field as trimmed text (`v ? String(v).trim() : null`). */
  function TrimmedTextOrNull(v: Value, show: Value -> string): Value {
    if JsTruthy(v) then Str(JsTrim(JsString(v, show))) else Null
  }

  /** The link `content[key] || content.social?.[key]`, validated. */
  function SocialLink(content: Value, key: string, parses: string -> bool): Value {
    TextOrNull(ValidateUrl(JsOr(Get(content, key), Get(Get(content, "social"), key)), parses))
  }

  /** The three social links of a contact section; present even when all are null. */
  function SocialLinks(content: Value, parses: string -> bool): (r: Value)
    ensures r.Obj? && "linkedin" in r.fields && "github" in r.fields && "website" in r.fields
    ensures r.fields.Keys == {"linkedin", "github", "website"}
  {
    Obj(map["linkedin" := SocialLink(content, "linkedin", parses),
            "github" := SocialLink(content, "github", parses),
            "website" := SocialLink(content, "website", parses)])
  }

  /** `normalizeComponentContent`: anything but an object gives {}; the content (`content || {}`)
      of the six known types is rewritten to the fields their templates read; any other type's
      content is returned as it is. */
  function NormalizeComponentContent(c: Value, show: Value -> string, number: Value -> Value,
                                     parses: string -> bool): (r: Value)
    ensures !(c.Obj? || c.Arr?) ==> r == Obj(map[])
    ensures KindOf(Get(c, "component_type")) == OtherContent ==> r == JsOr(Get(c, "content"), Obj(map[]))
    ensures KindOf(Get(c, "component_type")) != OtherContent ==> r.Obj?
  {
    if !JsTruthy(c) || !(c.Obj? || c.Arr?) then Obj(map[])
    else
      var content := JsOr(Get(c, "content"), Obj(map[]));
      match KindOf(Get(c, "component_type"))
      case HeaderContent =>
        Obj(map["title" := JsOr(Get(content, "title"), Str("")), "subtitle" := JsOr(Get(content, "subtitle"), Str(""))])
      case AboutContent => Obj(map["bio" := JsOr(Get(content, "bio"), Str(""))])
      case SkillsContent => Obj(map["skills" := Arr(Strs(NormalizeSkills(Get(content, "skills"), show)))])
      case ProjectsContent =>
        Obj(map["projects" := Arr(ProjectValues(ValidateProjects(Get(content, "projects"), show, number)))])
      case BlogContent => Obj(map["posts" := Arr(BlogPostValues(ValidateBlogPosts(Get(content, "posts"), show, number)))])
      case ContactContent =>
        Obj(map["email" := TextOrNull(ValidateEmail(Get(content, "email"))),
                "phone" := TrimmedTextOrNull(Get(content, "phone"), show),
                "location" := TrimmedTextOrNull(Get(content, "location"), show),
                "social" := SocialLinks(content, parses)])
      case OtherContent => content
  }

  /** A contact component's content always carries the three social links, whatever it held. */
  lemma ContactAlwaysHasSocial(c: Value, show: Value -> string, number: Value -> Value, parses: string -> bool)
    requires c.Obj? && Get(c, "component_type") == Str("contact")
    ensures var r := NormalizeComponentContent(c, show, number, parses);
            r.Obj? && "social" in r.fields && r.fields["social"].Obj?
            && r.fields["social"].fields.Keys == {"linkedin", "github", "website"}
  {
  }
}
