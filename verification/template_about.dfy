/** The about section of the templates: the owner's bio, cut at 500 characters behind a
    "Read More" toggle, and rendered as markdown when it looks like markdown. */
module TemplateAbout {
  import opened Strings
  import opened Json
  import opened TemplateTypes
  import TemplateBlog

  /** Bios longer than this are cut until expanded. */
  const MaxBioLength: nat := 500

  /** The section's style class: the template's own, or the modern one for an unknown name. */
  function SectionClass(templateType: string): (r: string)
    ensures ParseType(templateType).Some? ==> r == "template-" + templateType + "-section"
    ensures ParseType(templateType).None? ==> r == "template-modern-section"
  {
    "template-" + TypeName(TypeOrModern(templateType)) + "-section"
  }

  /** `hasMarkdown`: the bio contains `**`, `*`, `[`, `#` or a backtick. */
  predicate HasMarkdown(bio: string) {
    Contains(bio, "**") || Contains(bio, "*") || Contains(bio, "[") || Contains(bio, "#") || Contains(bio, "`")
  }

  /** The characters that mark a bio as markdown. */
  const MarkdownStarts: set<char> := {'*', '[', '#', '`'}

  /** A one-character string occurs exactly where that character is. */
  lemma ContainsChar(s: string, c: char)
    ensures Contains(s, [c]) <==> exists i :: 0 <= i < |s| && s[i] == c
  {
    if exists i :: 0 <= i < |s| && s[i] == c {
      var i :| 0 <= i < |s| && s[i] == c;
      assert OccursAt(s, [c], i);
    }
    if Contains(s, [c]) {
      var i: nat :| i <= |s| && OccursAt(s, [c], i);
      assert i < |s| && s[i..i + 1] == [c];
      assert s[i] == s[i..i + 1][0] == c;
    }
  }

  /** Markdown is detected exactly when one of the four characters occurs; the test for `**` adds
      nothing, as it implies the test for `*`. */
  lemma HasMarkdownIff(bio: string)
    ensures HasMarkdown(bio) <==> exists i :: 0 <= i < |bio| && bio[i] in MarkdownStarts
  {
    ContainsChar(bio, '*');
    ContainsChar(bio, '[');
    ContainsChar(bio, '#');
    ContainsChar(bio, '`');
    if Contains(bio, "**") {
      var i: nat :| i <= |bio| && OccursAt(bio, "**", i);
      assert bio[i..i + 2] == "**";
      assert bio[i] == '*';
    }
  }

  /** What the section shows. */
  datatype About =
    | NoBio
    | Bio(sectionClass: string, display: string, markdown: bool, toggle: bool)

  /** A bio that is missing, not a string or blank shows the placeholder. */
  predicate Blank(bio: Value) {
    !JsTruthy(bio) || !bio.Str? || JsTrim(bio.s) == ""
  }

  /** The section: the placeholder for a blank bio; otherwise the bio, cut at 500 characters
      (trimmed, with "...") while collapsed, with the toggle exactly when the bio is too long. */
  function Render(bio: Value, templateType: string, isExpanded: bool): (r: About)
    ensures r.NoBio? <==> Blank(bio)
    ensures r.Bio? ==> (r.toggle <==> |bio.s| > MaxBioLength)
    ensures r.Bio? && (isExpanded || |bio.s| <= MaxBioLength) ==> r.display == bio.s
    ensures r.Bio? && !isExpanded && |bio.s| > MaxBioLength ==>
              r.display == TemplateBlog.TruncateText(bio.s, MaxBioLength)
              && EndsWith(r.display, "...") && |r.display| <= MaxBioLength + 3
    ensures r.Bio? ==> (r.markdown <==> exists i :: 0 <= i < |bio.s| && bio.s[i] in MarkdownStarts)
    ensures r.Bio? ==> r.sectionClass == SectionClass(templateType)
  {
    if Blank(bio) then NoBio
    else
      var shouldTruncate := |bio.s| > MaxBioLength;
      var display := if shouldTruncate && !isExpanded then JsTrim(bio.s[..MaxBioLength]) + "..." else bio.s;
      HasMarkdownIff(bio.s);
      Bio(SectionClass(templateType), display, HasMarkdown(bio.s), shouldTruncate)
  }

  /** The toggle never changes whether the bio counts as markdown, and expanding shows the
      whole bio. */
  lemma ExpandShowsWholeBio(bio: Value, templateType: string)
    requires !Blank(bio)
    ensures Render(bio, templateType, true).display == bio.s
    ensures Render(bio, templateType, true).markdown == Render(bio, templateType, false).markdown
  {
  }
}
