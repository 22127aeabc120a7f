/** The text generators for bios, project descriptions and blog posts. Each has a placeholder
    path used when no AI client is configured and, where the source has one, a fallback used
    when the AI reply is empty or malformed. The AI replies themselves are parameters: `reply`
    for a single call, or a function of the call's inputs where the inputs matter. */
module ContentGenerator {
  import opened Base
  import opened Strings
  import opened Seqs
  import opened Json

  // ---------------------------------------------------------------------------
  // Bio

  const BioHead: string := "[AI Generated Bio - Placeholder]\n\nI am "
  const BioPassion: string := ", a dedicated professional with a passion for excellence.\n\n"
  const BioDefaultSummary: string :=
    "With a strong foundation in technology and a commitment to continuous learning, I strive to deliver impactful solutions."
  const BioSpans: string := "\n\nMy expertise spans across "
  const BioTail: string :=
    ", and I am always eager to take on new challenges and contribute to innovative projects.\n\nTo enable AI-powered bio generation, please add your GEMINI_API_KEY to the backend/.env file.\n"

  /** The skills named in the placeholder bio: the first five joined, or 'various technologies'. */
  function Expertise(skills: Value): (r: string)
    ensures !PyTruthy(skills) ==> r == "various technologies"
    ensures skills.Arr? && PyTruthy(skills) ==> r == Join(StrsOf(Take(skills.items, 5)), ", ")
  {
    if PyTruthy(skills) then JoinFirst(skills, 5, ", ") else "various technologies"
  }

  /** The placeholder bio mentions each of the first five skills of a list of strings. */
  lemma ExpertiseNamesFirstFive(xs: seq<string>, k: nat)
    requires k < Min(5, |xs|)
    ensures Contains(Expertise(Arr(Strs(xs))), xs[k])
  {
    var t := Take(Strs(xs), 5);
    assert forall i :: 0 <= i < |t| ==> t[i].Str?;
    assert Strs(StrsOf(t)) == t;
    assert StrsOf(t)[k] == xs[k] by {
      assert Strs(StrsOf(t))[k] == t[k] == Str(xs[k]);
    }
    JoinContains(StrsOf(t), ", ", k);
  }

  /** `generate_bio` with no AI client: a fixed frame around the name, the summary (or a
      default sentence) and the expertise. */
  function PlaceholderBio(resume: Value, show: Value -> string): (r: string)
    ensures StartsWith(r, BioHead)
    ensures EndsWith(r, BioTail)
    ensures !PyTruthy(Get(resume, "summary")) ==> Contains(r, BioDefaultSummary)
  {
    var name := PyStr(GetOr(resume, "name", Str("Professional")), show);
    var summary := GetOr(resume, "summary", Str(""));
    var middle := if PyTruthy(summary) then PyStr(summary, show) else BioDefaultSummary;
    var body := name + BioPassion + middle + (BioSpans + Expertise(GetOr(resume, "skills", Arr([]))));
    Frame(name + BioPassion, middle, BioSpans + Expertise(GetOr(resume, "skills", Arr([]))));
    Frame(BioHead, body, BioTail);
    ContainsWithin(BioHead + body + BioTail, body, middle);
    BioHead + body + BioTail
  }

  /** `generate_bio`: the placeholder without an AI client, else the AI reply. */
  function Bio(resume: Value, configured: bool, reply: string, show: Value -> string): (r: string)
    ensures !configured ==> StartsWith(r, BioHead)
    ensures configured ==> r == reply
  {
    if configured then reply else PlaceholderBio(resume, show)
  }

  // ---------------------------------------------------------------------------
  // Project descriptions

  const DescriptionHead: string := "\n        [AI Generated Description - Placeholder]\n        "
  const DescriptionInnovative: string :=
    " is an innovative project that leverages modern technologies\n        to deliver exceptional user experiences. Built with "
  const DescriptionShowcases: string := ",\n        this project showcases expertise in "
  const DescriptionTail: string := ".\n        "
  const ShortBuiltWith: string := " - A project built with "
  const ShortDelivers: string := " that delivers exceptional user experiences."
  const ShortFallback: string := " - A professional project built with modern technologies."

  /** `generate_project_description`: the placeholder names the first three technologies and
      skills, or generic words for an empty list; with a client it is the AI reply. */
  function ProjectDescription(title: string, technologies: Value, skills: Value, configured: bool, reply: string): (r: string)
    ensures configured ==> r == reply
    ensures !configured ==> StartsWith(r, DescriptionHead + title)
    ensures !configured && !PyTruthy(technologies) ==>
              Contains(r, DescriptionInnovative + "cutting-edge tools" + DescriptionShowcases)
    ensures !configured && technologies.Arr? && PyTruthy(technologies) ==>
              Contains(r, DescriptionInnovative + Join(StrsOf(Take(technologies.items, 3)), ", ") + DescriptionShowcases)
    ensures !configured && !PyTruthy(skills) ==> EndsWith(r, "various domains" + DescriptionTail)
    ensures !configured && skills.Arr? && PyTruthy(skills) ==>
              EndsWith(r, Join(StrsOf(Take(skills.items, 3)), ", ") + DescriptionTail)
  {
    if configured then reply
    else
      var tech := if PyTruthy(technologies) then JoinFirst(technologies, 3, ", ") else "cutting-edge tools";
      var sk := if PyTruthy(skills) then JoinFirst(skills, 3, ", ") else "various domains";
      var mid := DescriptionInnovative + tech + DescriptionShowcases;
      Frame(DescriptionHead + title, mid, sk + DescriptionTail);
      DescriptionHead + title + mid + (sk + DescriptionTail)
  }

  /** `generate_project_short_description`. Without a client: a sentence naming the first three
      technologies (or 'modern technologies'). With one: the reply cut to 300 characters, or a
      fixed sentence when the reply is empty. */
  function ShortDescription(title: string, technologies: Value, configured: bool, reply: string): (r: string)
    ensures !configured ==> StartsWith(r, title + ShortBuiltWith) && EndsWith(r, ShortDelivers)
    ensures !configured && !PyTruthy(technologies) ==> r == title + ShortBuiltWith + "modern technologies" + ShortDelivers
    ensures configured && |reply| > 0 ==> |r| <= 300 && r <= reply && (|reply| <= 300 ==> r == reply)
    ensures configured && |reply| == 0 ==> r == title + ShortFallback
  {
    if !configured then
      var tech := if PyTruthy(technologies) then JoinFirst(technologies, 3, ", ") else "modern technologies";
      Frame(title + ShortBuiltWith, tech, ShortDelivers);
      title + ShortBuiltWith + tech + ShortDelivers
    else if |reply| > 0 then Take(reply, 300)
    else title + ShortFallback
  }

  /** The description pair a project editor receives. */
  datatype ProjectText = ProjectText(description: string, shortDescription: string)

  /** `generate_project_content`. Falsy technology and skill lists become empty lists, and the
      full description is handed to the short-description call (`summarise` stands for that
      AI call as a function of the title, the technologies and the full description). */
  function ProjectContent(title: string, technologies: Value, skills: Value, configured: bool,
                          describe: (string, Value, Value) -> string,
                          summarise: (string, Value, string) -> string): (r: ProjectText)
    ensures var techs := if PyTruthy(technologies) then technologies else Arr([]);
            var sks := if PyTruthy(skills) then skills else Arr([]);
            && r.description == ProjectDescription(title, techs, sks, configured, describe(title, techs, sks))
            && r.shortDescription == ShortDescription(title, techs, configured, summarise(title, techs, r.description))
  {
    var techs := PyOr(technologies, Arr([]));
    var sks := PyOr(skills, Arr([]));
    var description := ProjectDescription(title, techs, sks, configured, describe(title, techs, sks));
    ProjectText(description, ShortDescription(title, techs, configured, summarise(title, techs, description)))
  }

  /** With no technologies and no client, the short description says 'modern technologies'. */
  lemma ProjectContentNoTechnologies(title: string, technologies: Value, skills: Value,
                                     describe: (string, Value, Value) -> string,
                                     summarise: (string, Value, string) -> string)
    requires !PyTruthy(technologies)
    ensures ProjectContent(title, technologies, skills, false, describe, summarise).shortDescription
            == title + ShortBuiltWith + "modern technologies" + ShortDelivers
  {
    assert !PyTruthy(Arr([]));
  }

  // ---------------------------------------------------------------------------
  // Blog outline and content

  function Section(heading: string, content: string): Value {
    Obj(map["heading" := Str(heading), "content" := Str(content)])
  }

  /** `generate_blog_outline`. Without a client: three placeholder sections. With one: the AI
      reply when it is a dict with 'sections', else a four-section fallback. */
  function BlogOutline(topic: string, configured: bool, reply: Value): (r: Value)
    ensures r.Obj? && "sections" in r.fields
    ensures configured && reply.Obj? && "sections" in reply.fields <==> configured && r == reply
    ensures !configured ==> "title" in r.fields && r.fields["title"] == Str("Exploring " + topic)
                              && r.fields["sections"].Arr? && |r.fields["sections"].items| == 3
    ensures configured && !(reply.Obj? && "sections" in reply.fields) ==>
              "title" in r.fields && r.fields["title"] == Str("Exploring " + topic)
              && r.fields["sections"].Arr? && |r.fields["sections"].items| == 4
  {
    if !configured then
      Obj(map["title" := Str("Exploring " + topic),
              "sections" := Arr([Section("Introduction", "Introduction to the topic"),
                                 Section("Main Points", "Key points to discuss"),
                                 Section("Conclusion", "Summary and conclusion")])])
    else if reply.Obj? && "sections" in reply.fields then reply
    else
      Obj(map["title" := Str("Exploring " + topic),
              "sections" := Arr([Section("Introduction", "An introduction to " + topic + " and its importance."),
                                 Section("Key Concepts", "Understanding the fundamental concepts."),
                                 Section("Best Practices", "Practical tips and best practices."),
                                 Section("Conclusion", "Summary and key takeaways.")])])
  }

  /** One outline section as Markdown: its heading (default 'Section') and its content. */
  function SectionMarkdown(section: Value, show: Value -> string): string {
    "## " + PyStr(GetOr(section, "heading", Str("Section")), show) + "\n\n"
    + PyStr(GetOr(section, "content", Str("")), show) + "\n\n"
  }

  /** The sections rendered one after another, in order. */
  function SectionsMarkdown(sections: seq<Value>, show: Value -> string): string {
    Concat(SectionParts(sections, show))
  }

  /** Rendering one more section appends its Markdown. */
  lemma SectionsMarkdownSnoc(sections: seq<Value>, x: Value, show: Value -> string)
    ensures SectionsMarkdown(sections + [x], show) == SectionsMarkdown(sections, show) + SectionMarkdown(x, show)
  {
    var parts := SectionParts(sections, show);
    assert SectionParts(sections + [x], show) == parts + [SectionMarkdown(x, show)];
    ConcatAppend(parts, [SectionMarkdown(x, show)]);
    assert [SectionMarkdown(x, show)][..0] == [];
  }

  function SectionParts(sections: seq<Value>, show: Value -> string): (r: seq<string>)
    ensures |r| == |sections|
    ensures forall i :: 0 <= i < |r| ==> r[i] == SectionMarkdown(sections[i], show)
  {
    seq(|sections|, i requires 0 <= i < |sections| => SectionMarkdown(sections[i], show))
  }

  /** Section `k` appears in the rendering right after the sections before it. */
  lemma SectionAt(sections: seq<Value>, k: nat, show: Value -> string)
    requires k < |sections|
    ensures OccursAt(SectionsMarkdown(sections, show), SectionMarkdown(sections[k], show),
                     |SectionsMarkdown(sections[..k], show)|)
  {
    var parts := SectionParts(sections, show);
    ConcatAt(parts, k);
    assert parts[..k] == SectionParts(sections[..k], show);
  }

  /** The loop of the unconfigured `generate_blog_content` that renders an outline. */
  method RenderOutline(heading: string, sections: seq<Value>, show: Value -> string) returns (content: string)
    ensures content == "# " + heading + "\n\n" + SectionsMarkdown(sections, show)
  {
    content := "# " + heading + "\n\n";
    var i := 0;
    while i < |sections|
      invariant i <= |sections|
      invariant content == "# " + heading + "\n\n" + SectionsMarkdown(sections[..i], show)
    {
      assert sections[..i + 1] == sections[..i] + [sections[i]];
      SectionsMarkdownSnoc(sections[..i], sections[i], show);
      content := content + SectionMarkdown(sections[i], show);
      i := i + 1;
    }
    assert sections[..i] == sections;
  }

  /** Whether `for section in sections: section.get(...)` runs: every element of a list is a dict,
      or an empty string or dict gives nothing to walk. Anything else raises: None, a number or a
      bool is not iterable, and a string's characters, a dict's keys and a non-dict list element
      have no `.get`. */
  predicate WalkableSections(sections: Value) {
    (sections.Arr? && forall i :: 0 <= i < |sections.items| ==> sections.items[i].Obj?)
    || sections == Str("") || sections == Obj(map[])
  }

  /** `generate_blog_content`. A truthy outline dict is walked section by section, with or
      without a client, so sections that cannot be walked raise (`None`). Without a client the
      outline is rendered heading by heading (the title defaults to the given title, then the
      topic), or with no outline a one-line stub is returned. With a client the AI reply is
      returned. */
  method BlogContent(topic: string, title: string, outline: Value, configured: bool, reply: string,
                     show: Value -> string) returns (content: Option<string>)
    ensures content.None? <==>
              outline.Obj? && PyTruthy(outline) && !WalkableSections(GetOr(outline, "sections", Arr([])))
    ensures configured && content.Some? ==> content.value == reply
    ensures !configured && outline.Obj? && PyTruthy(outline) && content.Some? ==>
              content.value == "# " + PyStr(GetOr(outline, "title", Str(if |title| > 0 then title else topic)), show) + "\n\n"
                               + SectionsMarkdown(ItemsOf(GetOr(outline, "sections", Arr([]))), show)
    ensures !configured && !(outline.Obj? && PyTruthy(outline)) ==>
              content == Some("# " + (if |title| > 0 then title else topic) + "\n\nThis is a blog post about "
                              + (if |topic| > 0 then topic else title) + ".")
  {
    if outline.Obj? && PyTruthy(outline) && !WalkableSections(GetOr(outline, "sections", Arr([]))) {
      content := None;
    } else if configured {
      content := Some(reply);
    } else if outline.Obj? && PyTruthy(outline) {
      var heading := PyStr(GetOr(outline, "title", Str(if |title| > 0 then title else topic)), show);
      var rendered := RenderOutline(heading, ItemsOf(GetOr(outline, "sections", Arr([]))), show);
      content := Some(rendered);
    } else {
      content := Some("# " + (if |title| > 0 then title else topic) + "\n\nThis is a blog post about "
                      + (if |topic| > 0 then topic else title) + ".");
    }
  }

  /** A section that is not a dict has no `.get`: the outline cannot be written, with or without a
      client. */
  method NonDictSectionFails(topic: string, title: string, outline: Value, configured: bool, reply: string,
                             show: Value -> string, k: nat) returns (content: Option<string>)
    requires outline.Obj? && "sections" in outline.fields && outline.fields["sections"].Arr?
    requires k < |outline.fields["sections"].items| && !outline.fields["sections"].items[k].Obj?
    ensures content.None?
  {
    content := BlogContent(topic, title, outline, configured, reply, show);
  }

  // ---------------------------------------------------------------------------
  // Blog excerpt

  /** Python's `s[:n]`: the first `n` characters, or for a negative `n` all but the last `-n`. */
  function PyPrefix(s: string, n: int): (r: string)
    ensures r <= s
    ensures n >= 0 ==> |r| == Min(n, |s|)
    ensures n < 0 ==> |r| == Max(0, |s| + n)
  {
    if n >= 0 then Take(s, n) else s[..Max(0, |s| + n)]
  }

  /** `s[:n] + ('...' if len(s) > n else '')`. A negative `n` counts from the end, so the text
      loses its last `-n` characters and always gets the dots. */
  function Truncate(s: string, n: int): (r: string)
    ensures n >= 0 ==> |r| <= n + 3
    ensures |s| <= n ==> r == s
    ensures 0 <= n < |s| ==> r == s[..n] + "..."
    ensures n < 0 ==> r == s[..|s| - Min(|s|, -n)] + "..."
  {
    PyPrefix(s, n) + (if |s| > n then "..." else "")
  }

  /** Removing Markdown emphasis: `**`, then `*`, then backticks. */
  function Unformat(s: string): string {
    ReplaceAll(ReplaceAll(ReplaceAll(s, "**", ""), "*", ""), "`", "")
  }

  /** Removing emphasis deletes exactly the asterisks and backticks. */
  lemma UnformatRemoves(s: string)
    ensures Unformat(s) == RemoveChars(s, {'*', '`'})
  {
    var u := ReplaceAll(s, "**", "");
    DoubleStarThenStar(s);
    ReplaceCharIsRemove(u, '*');
    assert "*" == ['*'] && "`" == ['`'];
    var t := RemoveChars(s, {'*'});
    assert ReplaceAll(u, "*", "") == t;
    ReplaceCharIsRemove(t, '`');
    RemoveCharsTwice(s, {'*'}, {'`'});
    assert {'*'} + {'`'} == {'*', '`'};
  }

  /** The first paragraph that is not blank, stripped. */
  function FirstParagraph(pieces: seq<string>): (r: Option<string>)
    ensures r.None? <==> forall i :: 0 <= i < |pieces| ==> PyStrip(pieces[i]) == ""
    ensures r.Some? ==> exists i :: 0 <= i < |pieces| && r.value == PyStrip(pieces[i]) != ""
                          && forall j :: 0 <= j < i ==> PyStrip(pieces[j]) == ""
  {
    match FirstIndex(pieces, (p: string) => PyStrip(p) != "")
    case None => None
    case Some(i) => Some(PyStrip(pieces[i]))
  }

  /** The excerpt taken without AI: the first non-blank paragraph of the text with '#' removed,
      unformatted and truncated; or the raw content truncated when there is none. */
  function PlainExcerpt(content: string, maxLength: int): (r: string)
    ensures maxLength >= 0 ==> |r| <= maxLength + 3
    ensures maxLength < 0 ==> EndsWith(r, "...")
  {
    var text := PyStrip(ReplaceAll(content, "#", ""));
    match FirstParagraph(SplitOn(text, "\n\n"))
    case Some(p) => Truncate(Unformat(p), maxLength)
    case None => Truncate(content, maxLength)
  }

  /** `generate_blog_excerpt`. With a client and a non-empty reply, the unformatted, stripped
      reply truncated; otherwise the plain excerpt. */
  function BlogExcerpt(content: string, maxLength: int, configured: bool, reply: string): (r: string)
    ensures maxLength >= 0 ==> |r| <= maxLength + 3
    ensures maxLength < 0 ==> EndsWith(r, "...")
    ensures configured && |reply| > 0 ==> r == Truncate(PyStrip(Unformat(reply)), maxLength)
    ensures !(configured && |reply| > 0) ==> r == PlainExcerpt(content, maxLength)
  {
    if configured && |reply| > 0 then Truncate(PyStrip(Unformat(reply)), maxLength)
    else PlainExcerpt(content, maxLength)
  }

  /** A short text with no heading marks, emphasis or blank lines is its own excerpt. */
  lemma PlainExcerptOfShortParagraph(content: string, maxLength: int)
    requires |content| <= maxLength && |content| > 0
    requires !IsPySpace(content[0]) && !IsPySpace(content[|content| - 1])
    requires forall i :: 0 <= i < |content| ==> content[i] !in {'#', '*', '`', '\n'}
    ensures PlainExcerpt(content, maxLength) == content
  {
    ReplaceCharIsRemove(content, '#');
    RemoveCharsNone(content, {'#'});
    TrimNoEdges(content, IsPySpace);
    NoNewlineSplit(content);
    UnformatRemoves(content);
    RemoveCharsNone(content, {'*', '`'});
  }

  /** A text without a newline is one paragraph. */
  lemma NoNewlineSplit(s: string)
    requires forall i :: 0 <= i < |s| ==> s[i] != '\n'
    ensures SplitOn(s, "\n\n") == [s]
  {
    forall j | 0 <= j <= |s|
      ensures !OccursAt(s, "\n\n", j)
    {
      if j + 2 <= |s| {
        assert s[j..j + 2][0] == s[j];
      }
    }
    assert FindFrom(s, "\n\n", 0).None?;
  }
}
