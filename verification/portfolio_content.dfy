/** Portfolio component content generation: the component dispatch, the per-type content
    builders, and the placeholder table used when no AI client is configured.

    Dicts are `Json.Value` objects. `show` stands for Python's `str()` on non-string values. */
module PortfolioContent {
  import opened Base
  import opened Strings
  import opened Seqs
  import opened Json
  import ContentGenerator

  const ComponentTypes: set<string> := {
    "header", "hero_banner", "about", "about_me_card", "skills", "skills_cloud",
    "experience_timeline", "projects", "project_grid", "services_section",
    "achievements_counters", "testimonials_carousel", "blog_preview_grid", "contact",
    "contact_form", "footer"}

  const SkillDefaults: seq<string> := ["Communication", "Problem Solving", "Teamwork"]
  const CloudDefaults: seq<string> := ["Communication", "Problem Solving", "Teamwork", "Leadership", "Project Management"]

  const BioTail: string := ", a dedicated professional passionate about delivering excellence."
  const ContactBlurb: string := "Feel free to reach out for collaborations, opportunities, or just to say hello!"
  const TestimonialText: string := "Outstanding work and professionalism. Highly recommended!"
  const Rights: string := ". All rights reserved."

  /** `resume_data.get('name', 'Professional')`. */
  function NameOf(resume: Value): Value {
    GetOr(resume, "name", Str("Professional"))
  }

  /** The default bio sentence for a name. */
  function DefaultBio(name: Value, show: Value -> string): string {
    "I am " + PyStr(name, show) + BioTail
  }

  // ---------------------------------------------------------------------------
  // Skills

  /** The skill list before cleaning. A truthy non-list resume value is converted (a string is
      comma-split and stripped, anything else becomes its `str()`); a falsy one is replaced by
      the existing content's skills (wrapped in a list unless already one), else by the defaults. */
  function RawSkills(resume: Value, existing: Value, defaults: seq<string>, show: Value -> string): (r: seq<Value>)
    ensures !PyTruthy(GetOr(resume, "skills", Arr([]))) && !PyTruthy(GetOr(existing, "skills", Arr([]))) ==>
              r == Strs(defaults)
    ensures GetOr(resume, "skills", Arr([])).Arr? && PyTruthy(GetOr(resume, "skills", Arr([]))) ==>
              r == GetOr(resume, "skills", Arr([])).items
  {
    var skills := GetOr(resume, "skills", Arr([]));
    var converted :=
      if PyTruthy(skills) && !skills.Arr? then
        (if skills.Str? then Arr(Strs(StripEach(Split(skills.s, ',')))) else Arr([Str(show(skills))]))
      else skills;
    if PyTruthy(converted) then ItemsOf(converted)
    else
      var ex := GetOr(existing, "skills", Arr([]));
      if PyTruthy(ex) then (if ex.Arr? then ex.items else [ex])
      else Strs(defaults)
  }

  /** `[s.strip() for s in parts]`. */
  function StripEach(parts: seq<string>): (r: seq<string>)
    ensures |r| == |parts|
    ensures forall i :: 0 <= i < |r| ==> r[i] == PyStrip(parts[i])
  {
    seq(|parts|, i requires 0 <= i < |parts| => PyStrip(parts[i]))
  }

  /** `[str(s).strip() for s in skills if s and str(s).strip()]`. */
  function CleanSkills(items: seq<Value>, show: Value -> string): (r: seq<string>)
    ensures |r| <= |items|
    ensures forall i :: 0 <= i < |r| ==> |r[i]| > 0 && PyStrip(r[i]) == r[i]
  {
    if |items| == 0 then []
    else
      var init := CleanSkills(items[..|items| - 1], show);
      var v := items[|items| - 1];
      var t := PyStrip(PyStr(v, show));
      TrimIdempotent(PyStr(v, show), IsPySpace);
      if PyTruthy(v) && |t| > 0 then init + [t] else init
  }

  /** The skill names of a skills component: cleaned, de-duplicated case-insensitively keeping
      the first spelling, and capped. */
  function SkillNames(resume: Value, existing: Value, defaults: seq<string>, cap: nat, show: Value -> string): (r: seq<string>)
    ensures |r| <= cap
    ensures forall i :: 0 <= i < |r| ==> |r[i]| > 0 && PyStrip(r[i]) == r[i]
    ensures forall i, j :: 0 <= i < j < |r| ==> Lower(r[i]) != Lower(r[j])
    ensures r == Take(FirstsOf(CleanSkills(RawSkills(resume, existing, defaults, show), show), Lower), cap)
  {
    var clean := CleanSkills(RawSkills(resume, existing, defaults, show), show);
    CappedUnique(clean, cap);
    Take(DedupeBy(clean, Lower), cap)
  }

  /** The first `cap` case-insensitively distinct entries are distinct and drawn from the list. */
  lemma CappedUnique(clean: seq<string>, cap: nat)
    ensures var t := Take(DedupeBy(clean, Lower), cap);
      && t == Take(FirstsOf(clean, Lower), cap)
      && (forall i :: 0 <= i < |t| ==> t[i] in clean)
      && (forall i, j :: 0 <= i < j < |t| ==> Lower(t[i]) != Lower(t[j]))
  {
    var u := DedupeBy(clean, Lower);
    DedupeByFirsts(clean, Lower);
    var t := Take(u, cap);
    assert forall i :: 0 <= i < |t| ==> t[i] == u[i] && u[i] in clean;
  }

  /** `_generate_skills_content`: at most 20 skills. */
  function SkillsContent(resume: Value, existing: Value, show: Value -> string): Value {
    Obj(map["skills" := Arr(Strs(SkillNames(resume, existing, SkillDefaults, 20, show)))])
  }

  /** `_generate_skills_cloud_content`: at most 30 skills, five defaults, cloud display. */
  function SkillsCloudContent(resume: Value, existing: Value, show: Value -> string): Value {
    Obj(map["skills" := Arr(Strs(SkillNames(resume, existing, CloudDefaults, 30, show))),
            "display_mode" := Str("cloud")])
  }

  /** Already clean, non-blank strings pass the cleaning unchanged. */
  lemma {:induction false} CleanSkillsOfClean(xs: seq<string>, show: Value -> string)
    requires forall i :: 0 <= i < |xs| ==> |xs[i]| > 0 && PyStrip(xs[i]) == xs[i]
    ensures CleanSkills(Strs(xs), show) == xs
  {
    if |xs| > 0 {
      var init := xs[..|xs| - 1];
      var items := Strs(xs);
      assert items[..|items| - 1] == Strs(init);
      CleanSkillsOfClean(init, show);
      var v := items[|items| - 1];
      assert v == Str(xs[|xs| - 1]);
      assert PyTruthy(v) && PyStr(v, show) == xs[|xs| - 1];
      assert xs == init + [xs[|xs| - 1]];
    }
  }

  /** With no skills anywhere, the skills component lists the three defaults. */
  lemma SkillsDefaultWhenNone(resume: Value, existing: Value, show: Value -> string)
    requires !PyTruthy(GetOr(resume, "skills", Arr([])))
    requires !PyTruthy(GetOr(existing, "skills", Arr([])))
    ensures SkillNames(resume, existing, SkillDefaults, 20, show) == SkillDefaults
  {
    DefaultsClean(show);
    DefaultsDistinct();
  }

  /** The default skills are clean, so cleaning keeps them. */
  lemma DefaultsClean(show: Value -> string)
    ensures CleanSkills(Strs(SkillDefaults), show) == SkillDefaults
  {
    var c := SkillDefaults;
    TrimNoEdges(c[0], IsPySpace);
    TrimNoEdges(c[1], IsPySpace);
    TrimNoEdges(c[2], IsPySpace);
    CleanSkillsOfClean(c, show);
  }

  /** The default skills differ case-insensitively, so de-duplication keeps them all. */
  lemma DefaultsDistinct()
    ensures FirstsOf(SkillDefaults, Lower) == SkillDefaults
  {
    var c := SkillDefaults;
    assert Lower(c[0])[0] == 'c' && Lower(c[1])[0] == 'p' && Lower(c[2])[0] == 't';
    FirstsOfDistinct(c, Lower);
  }

  // ---------------------------------------------------------------------------
  // Experience timeline, projects and counters

  /** `' '.join(exp.get('responsibilities', []))`. */
  function Responsibilities(exp: Value): string {
    Join(StrItems(GetOr(exp, "responsibilities", Arr([]))), " ")
  }

  /** One timeline entry built from an experience dict. */
  function TimelineEntry(exp: Value): (r: Value)
    ensures r.Obj? && r.fields.Keys == {"title", "company", "start_date", "end_date", "description"}
    ensures !Has(exp, "title") && !Has(exp, "position") ==> r.fields["title"] == Str("Position")
    ensures PyTruthy(Get(exp, "title")) ==> r.fields["title"] == Get(exp, "title")
    ensures !Has(exp, "company") ==> r.fields["company"] == Str("Company")
    ensures !PyTruthy(GetOr(exp, "description", Str(""))) ==> r.fields["description"] == Str(Responsibilities(exp))
  {
    Obj(map["title" := PyOr(GetOr(exp, "title", Str("")), GetOr(exp, "position", Str("Position"))),
            "company" := GetOr(exp, "company", Str("Company")),
            "start_date" := GetOr(exp, "start_date", Str("")),
            "end_date" := GetOr(exp, "end_date", Str("")),
            "description" := PyOr(GetOr(exp, "description", Str("")), Str(Responsibilities(exp)))])
  }

  /** The experience list the timeline reads: the resume's, else the existing content's. */
  function TimelineSource(resume: Value, existing: Value): Value {
    var experiences := GetOr(resume, "experience", Arr([]));
    if !PyTruthy(experiences) && PyTruthy(Get(existing, "experiences")) then GetOr(existing, "experiences", Arr([]))
    else experiences
  }

  /** Whether `v[:n]` succeeds: a list or a string slices; a dict, number, bool or None raises a
      `TypeError`. */
  predicate Sliceable(v: Value) { v.Arr? || v.Str? }

  /** `_generate_experience_timeline_content`: the dict entries among the first ten, formatted, in
      order; `None` when the experience value cannot be sliced. */
  function Timeline(resume: Value, existing: Value): (r: Option<seq<Value>>)
    ensures r.None? <==> !Sliceable(TimelineSource(resume, existing))
    ensures r.Some? ==> |r.value| <= 10
    ensures r.Some? ==> |r.value| == Count(Take(ItemsOf(TimelineSource(resume, existing)), 10), IsObject)
    ensures r.Some? ==> forall i :: 0 <= i < |r.value| ==>
              r.value[i] == TimelineEntry(Filter(Take(ItemsOf(TimelineSource(resume, existing)), 10), IsObject)[i])
  {
    var experiences := TimelineSource(resume, existing);
    if !Sliceable(experiences) then None
    else
      var dicts := Filter(Take(ItemsOf(experiences), 10), IsObject);
      Some(seq(|dicts|, i requires 0 <= i < |dicts| => TimelineEntry(dicts[i])))
  }

  /** One project card derived from an experience dict for the project grid. */
  function ExperienceProject(exp: Value, show: Value -> string): (r: Value)
    ensures r.Obj? && r.fields.Keys == {"title", "description", "short_description", "image", "github_url",
                                        "live_url", "technologies"}
    ensures var heading := PyOr(GetOr(exp, "title", Str("")), GetOr(exp, "position", Str("")));
            var company := GetOr(exp, "company", Str(""));
            heading.Str? && company.Str? ==> r.fields["title"] == Str(heading.s + " at " + company.s)
    ensures PyTruthy(GetOr(exp, "description", Str(""))) ==> r.fields["description"] == GetOr(exp, "description", Str(""))
    ensures !PyTruthy(GetOr(exp, "description", Str(""))) ==> r.fields["description"] == Str(Responsibilities(exp))
    ensures r.fields["description"].Str? ==>
              r.fields["short_description"].Str?
              && r.fields["short_description"].s == r.fields["description"].s[..Min(200, |r.fields["description"].s|)]
    ensures r.fields["image"] == Str("") && r.fields["github_url"] == Str("") && r.fields["live_url"] == Str("")
            && r.fields["technologies"] == Arr([])
  {
    var description := PyOr(GetOr(exp, "description", Str("")), Str(Responsibilities(exp)));
    Obj(map["title" := Str(PyStr(PyOr(GetOr(exp, "title", Str("")), GetOr(exp, "position", Str(""))), show)
                           + " at " + PyStr(GetOr(exp, "company", Str("")), show)),
            "description" := description,
            "short_description" := PySlice(description, 200),
            "image" := Str(""),
            "github_url" := Str(""),
            "live_url" := Str(""),
            "technologies" := Arr([])])
  }

  /** `_generate_project_grid_content`: existing projects, else projects derived from the dict
      entries among the first five experiences; `None` when a truthy experience value cannot be
      sliced. */
  function ProjectGridContent(resume: Value, existing: Value, show: Value -> string): (r: Option<Value>)
    ensures var projects := GetOr(existing, "projects", Arr([]));
            r.None? <==> !PyTruthy(projects) && PyTruthy(Get(resume, "experience")) && !Sliceable(Get(resume, "experience"))
    ensures r.Some? ==> r.value.Obj? && r.value.fields.Keys == {"projects", "filter_categories", "show_filters"}
                        && r.value.fields["filter_categories"] == Arr([]) && r.value.fields["show_filters"] == Bool(true)
    ensures var projects := GetOr(existing, "projects", Arr([]));
            PyTruthy(projects) || !PyTruthy(Get(resume, "experience")) ==> r.Some? && r.value.fields["projects"] == projects
    ensures var exp := Get(resume, "experience");
            var dicts := Filter(Take(ItemsOf(exp), 5), IsObject);
            !PyTruthy(GetOr(existing, "projects", Arr([]))) && PyTruthy(exp) && Sliceable(exp) ==>
              r.Some? && r.value.fields["projects"].Arr?
              && |r.value.fields["projects"].items| == Count(Take(ItemsOf(exp), 5), IsObject)
              && forall i :: 0 <= i < |dicts| ==> r.value.fields["projects"].items[i] == ExperienceProject(dicts[i], show)
  {
    var projects := GetOr(existing, "projects", Arr([]));
    var experience := Get(resume, "experience");
    if !PyTruthy(projects) && PyTruthy(experience) && !Sliceable(experience) then None
    else
      var chosen :=
        if !PyTruthy(projects) && PyTruthy(experience) then
          var dicts := Filter(Take(ItemsOf(experience), 5), IsObject);
          Arr(seq(|dicts|, i requires 0 <= i < |dicts| => ExperienceProject(dicts[i], show)))
        else projects;
      Some(Obj(map["projects" := chosen, "filter_categories" := Arr([]), "show_filters" := Bool(true)]))
  }

  /** `_generate_projects_content`. */
  function ProjectsContent(existing: Value): (r: Value)
    ensures r.Obj? && "projects" in r.fields
    ensures PyTruthy(Get(existing, "projects")) ==> r.fields["projects"] == Get(existing, "projects")
    ensures !PyTruthy(Get(existing, "projects")) ==> r.fields["projects"] == Arr([])
  {
    var projects := GetOr(existing, "projects", Arr([]));
    Obj(map["projects" := if PyTruthy(projects) then projects else Arr([])])
  }

  /** The four default achievement counters. */
  function DefaultCounters(resume: Value, existing: Value): (r: seq<Value>)
    ensures |r| == 4
    ensures forall i :: 0 <= i < 4 ==> r[i].Obj? && "value" in r[i].fields && r[i].fields["value"].Num?
    ensures r[0].fields["value"].n >= 5 && r[1].fields["value"].n >= 2
    ensures r[2].fields["value"].n >= 10 && r[3].fields["value"].n >= 1
    ensures var experience := PyLen(GetOr(resume, "experience", Arr([])));
            var projects := PyLen(GetOr(existing, "projects", Arr([])));
            var skills := PyLen(GetOr(resume, "skills", Arr([])));
            var counted := if projects > 0 then projects else experience;
            r[0].fields["value"].n == (if counted >= 5 then counted else 5)
            && r[1].fields["value"].n == (if experience >= 2 then experience else 2)
            && r[2].fields["value"].n == (if 2 * counted >= 10 then 2 * counted else 10)
            && r[3].fields["value"].n == (if skills > 0 then skills else 10)
    ensures Get(r[0], "label") == Str("Projects Completed") && Get(r[1], "label") == Str("Years Experience")
            && Get(r[2], "label") == Str("Happy Clients") && Get(r[3], "label") == Str("Skills Mastered")
  {
    var p := PyLen(GetOr(existing, "projects", Arr([])));
    var projectsCount := if p != 0 then p else PyLen(GetOr(resume, "experience", Arr([])));
    var skills := PyLen(GetOr(resume, "skills", Arr([])));
    [Obj(map["label" := Str("Projects Completed"), "value" := Num(Max(projectsCount, 5)), "icon" := Str("Briefcase")]),
     Obj(map["label" := Str("Years Experience"), "value" := Num(Max(PyLen(GetOr(resume, "experience", Arr([]))), 2)), "icon" := Str("Calendar")]),
     Obj(map["label" := Str("Happy Clients"), "value" := Num(Max(projectsCount * 2, 10)), "icon" := Str("Users")]),
     Obj(map["label" := Str("Skills Mastered"), "value" := Num(if skills != 0 then skills else 10), "icon" := Str("Award")])]
  }

  /** `_generate_achievements_counters_content`: existing counters are kept; only when there are
      none are the four defaults produced. */
  function CountersContent(resume: Value, existing: Value): (r: Value)
    ensures r.Obj? && r.fields.Keys == {"counters"}
    ensures PyTruthy(GetOr(existing, "counters", Arr([]))) ==> r.fields["counters"] == GetOr(existing, "counters", Arr([]))
    ensures !PyTruthy(GetOr(existing, "counters", Arr([]))) ==>
              r.fields["counters"].Arr? && |r.fields["counters"].items| == 4
  {
    var counters := GetOr(existing, "counters", Arr([]));
    Obj(map["counters" := if PyTruthy(counters) then counters else Arr(DefaultCounters(resume, existing))])
  }

  // ---------------------------------------------------------------------------
  // Contact, hero banner, about-me card, services and the fixed sections

  /** `a.get(k1, '') or a.get(k2, '')`. */
  function EitherKey(v: Value, k1: string, k2: string): Value {
    PyOr(GetOr(v, k1, Str("")), GetOr(v, k2, Str("")))
  }

  /** A social link: the resume's own fields first, then its 'social' dict under two spellings. */
  function SocialLink(resume: Value, top1: string, top2: string, social1: string, social2: string): Value {
    var link := EitherKey(resume, top1, top2);
    var social := GetOr(resume, "social", Obj(map[]));
    if social.Obj? then PyOr(link, EitherKey(social, social1, social2)) else link
  }

  /** The existing content's 'social' entries (spread only when they form a dict). */
  function ExistingSocial(existing: Value): map<string, Value> {
    var social := GetOr(existing, "social", Obj(map[]));
    if social.Obj? then social.fields else map[]
  }

  /** `_generate_contact_content`. Resume values win over the existing top-level fields; the
      existing 'social' entries are spread last and so override the resume-derived links. */
  function ContactContent(resume: Value, existing: Value): (r: Value)
    ensures r.Obj? && r.fields.Keys == {"email", "phone", "location", "social"}
    ensures PyTruthy(GetOr(resume, "email", Str(""))) ==> r.fields["email"] == GetOr(resume, "email", Str(""))
    ensures !PyTruthy(GetOr(resume, "email", Str(""))) ==> r.fields["email"] == GetOr(existing, "email", Str(""))
    ensures PyTruthy(GetOr(resume, "phone", Str(""))) ==> r.fields["phone"] == GetOr(resume, "phone", Str(""))
    ensures r.fields["social"] == Obj(ContactSocial(resume, existing))
  {
    Obj(map["email" := PyOr(GetOr(resume, "email", Str("")), GetOr(existing, "email", Str(""))),
            "phone" := PyOr(GetOr(resume, "phone", Str("")), GetOr(existing, "phone", Str(""))),
            "location" := PyOr(EitherKey(resume, "location", "address"), GetOr(existing, "location", Str(""))),
            "social" := Obj(ContactSocial(resume, existing))])
  }

  /** The contact 'social' dict: resume-derived links (each falling back to the existing entry),
      overridden by every existing entry. */
  function ContactSocial(resume: Value, existing: Value): (r: map<string, Value>)
    ensures {"linkedin", "github", "website"} <= r.Keys
    ensures forall k :: k in ExistingSocial(existing) ==> k in r && r[k] == ExistingSocial(existing)[k]
    ensures "linkedin" !in ExistingSocial(existing) ==>
              r["linkedin"] == PyOr(SocialLink(resume, "linkedin", "linkedin_url", "linkedin", "LinkedIn"), Str(""))
  {
    var ex := GetOr(existing, "social", Obj(map[]));
    var derived := map[
      "linkedin" := PyOr(SocialLink(resume, "linkedin", "linkedin_url", "linkedin", "LinkedIn"), GetOr(ex, "linkedin", Str(""))),
      "github" := PyOr(SocialLink(resume, "github", "github_url", "github", "GitHub"), GetOr(ex, "github", Str(""))),
      "website" := PyOr(SocialLink(resume, "website", "portfolio_url", "website", "portfolio"), GetOr(ex, "website", Str("")))];
    derived + ExistingSocial(existing)
  }

  /** The hero banner's subtitle source: the resume title, else the first experience's title. */
  function HeroTitle(resume: Value): Value {
    var experience := Get(resume, "experience");
    var first := if PyTruthy(experience) && experience.Arr? then experience.items[0] else Obj(map[]);
    PyOr(GetOr(resume, "title", Str("")), GetOr(first, "title", Str("Professional")))
  }

  /** `_generate_hero_banner_content`: the subtitle is the title cut to 100 characters, or a
      welcome line when there is no title. */
  function HeroBannerContent(resume: Value): (r: Value)
    ensures r.Obj? && "subtitle" in r.fields && "title" in r.fields
    ensures r.fields["title"] == NameOf(resume)
    ensures !PyTruthy(HeroTitle(resume)) ==> r.fields["subtitle"] == Str("Welcome to My Portfolio")
    ensures HeroTitle(resume).Str? && PyTruthy(HeroTitle(resume)) ==>
              r.fields["subtitle"].Str? && |r.fields["subtitle"].s| <= 100 && r.fields["subtitle"].s <= HeroTitle(resume).s
  {
    var title := HeroTitle(resume);
    Obj(map["title" := NameOf(resume),
            "subtitle" := if PyTruthy(title) then PySlice(title, 100) else Str("Welcome to My Portfolio"),
            "background_image" := Str(""),
            "background_video" := Str(""),
            "cta_buttons" := Arr([Obj(map["text" := Str("View My Work"), "url" := Str("#projects"), "variant" := Str("primary")]),
                                  Obj(map["text" := Str("Contact Me"), "url" := Str("#contact"), "variant" := Str("secondary")])]),
            "overlay_opacity" := Real(0.5)])
  }

  /** `_generate_about_me_card_content`: the bio is the summary, or the default sentence when the
      resume has no summary key. */
  function AboutMeCardContent(resume: Value, show: Value -> string): (r: Value)
    ensures r.Obj? && "bio" in r.fields && "social_links" in r.fields
    ensures !Has(resume, "summary") ==> r.fields["bio"] == Str(DefaultBio(NameOf(resume), show))
    ensures Has(resume, "summary") ==> r.fields["bio"] == Get(resume, "summary")
  {
    Obj(map["name" := NameOf(resume),
            "title" := GetOr(resume, "title", Str("Professional")),
            "bio" := GetOr(resume, "summary", Str(DefaultBio(NameOf(resume), show))),
            "image" := Str(""),
            "social_links" := Obj(map["linkedin" := EitherKey(resume, "linkedin", "linkedin_url"),
                                      "github" := EitherKey(resume, "github", "github_url"),
                                      "twitter" := Str(""),
                                      "email" := GetOr(resume, "email", Str(""))])])
  }

  /** A service card offered for one skill. */
  function SkillService(skill: Value, show: Value -> string): Value {
    Obj(map["title" := skill, "description" := Str("Professional " + PyStr(skill, show) + " services"),
            "icon" := Str("Code")])
  }

  const DefaultServices: seq<Value> := [
    Obj(map["title" := Str("Web Development"), "description" := Str("Custom web solutions tailored to your needs"), "icon" := Str("Code")]),
    Obj(map["title" := Str("Consulting"), "description" := Str("Expert advice and strategic guidance"), "icon" := Str("Briefcase")]),
    Obj(map["title" := Str("Design"), "description" := Str("Creative and user-centered design solutions"), "icon" := Str("Palette")])]

  /** `_generate_services_section_content`: existing services, else one per skill for at most six
      skills, else three defaults. */
  function ServicesContent(resume: Value, existing: Value, show: Value -> string): (r: Value)
    ensures r.Obj? && "services" in r.fields
    ensures PyTruthy(GetOr(existing, "services", Arr([]))) ==> r.fields["services"] == GetOr(existing, "services", Arr([]))
    ensures var skills := GetOr(resume, "skills", Arr([]));
            !PyTruthy(GetOr(existing, "services", Arr([]))) && skills.Arr? && PyTruthy(skills) ==>
              r.fields["services"].Arr? && |r.fields["services"].items| == Min(6, |skills.items|)
              && forall i :: 0 <= i < |r.fields["services"].items| ==>
                   r.fields["services"].items[i].Obj? && "title" in r.fields["services"].items[i].fields
                   && r.fields["services"].items[i].fields["title"] == skills.items[i]
    ensures var skills := GetOr(resume, "skills", Arr([]));
            !PyTruthy(GetOr(existing, "services", Arr([]))) && !(skills.Arr? && PyTruthy(skills)) ==>
              r.fields["services"] == Arr(DefaultServices)
  {
    var services := GetOr(existing, "services", Arr([]));
    var skills := GetOr(resume, "skills", Arr([]));
    var chosen :=
      if PyTruthy(services) then services
      else if skills.Arr? && PyTruthy(skills) then
        var first := Take(skills.items, 6);
        Arr(seq(|first|, i requires 0 <= i < |first| => SkillService(first[i], show)))
      else Arr(DefaultServices);
    Obj(map["services" := chosen])
  }

  /** `_generate_testimonials_carousel_content`: existing testimonials, else one sample. */
  function TestimonialsContent(existing: Value): (r: Value)
    ensures r.Obj? && "testimonials" in r.fields
    ensures PyTruthy(GetOr(existing, "testimonials", Arr([]))) ==> r.fields == map["testimonials" := GetOr(existing, "testimonials", Arr([]))]
    ensures !PyTruthy(GetOr(existing, "testimonials", Arr([]))) ==>
              r.fields["testimonials"].Arr? && |r.fields["testimonials"].items| == 1
  {
    var testimonials := GetOr(existing, "testimonials", Arr([]));
    Obj(map["testimonials" :=
      if PyTruthy(testimonials) then testimonials
      else Arr([Obj(map["name" := Str("Client Name"), "role" := Str("CEO, Company"), "content" := Str(TestimonialText),
                        "avatar" := Str(""), "rating" := Num(5)])])])
  }

  /** `_generate_blog_preview_grid_content`: the existing posts, three per row. */
  function BlogPreviewContent(existing: Value): (r: Value)
    ensures r.Obj? && r.fields.Keys == {"posts", "posts_per_row"}
    ensures r.fields["posts"] == GetOr(existing, "posts", Arr([])) && r.fields["posts_per_row"] == Num(3)
  {
    Obj(map["posts" := GetOr(existing, "posts", Arr([])), "posts_per_row" := Num(3)])
  }

  const FormFields: Value := Arr([Str("name"), Str("email"), Str("message")])

  /** `_generate_contact_form_content`, with the description used when a client is configured
      (`describe`) or the empty one of the placeholder table. */
  function ContactForm(description: string): Value {
    Obj(map["title" := Str("Contact Info"), "description" := Str(description),
            "fields" := FormFields, "submit_button_text" := Str("Send Message")])
  }

  /** The footer's copyright line. */
  function Copyright(name: Value, show: Value -> string): string {
    "© 2024 " + PyStr(name, show) + Rights
  }

  /** `_generate_footer_content`. */
  function FooterContent(resume: Value, show: Value -> string): (r: Value)
    ensures r.Obj? && "copyright_text" in r.fields && "links" in r.fields
    ensures r.fields["copyright_text"] == Str(Copyright(NameOf(resume), show))
    ensures r.fields["links"].Arr? && |r.fields["links"].items| == 3
  {
    Obj(map["copyright_text" := Str(Copyright(NameOf(resume), show)),
            "links" := Arr([Obj(map["text" := Str("About"), "url" := Str("#about")]),
                            Obj(map["text" := Str("Projects"), "url" := Str("#projects")]),
                            Obj(map["text" := Str("Contact"), "url" := Str("#contact")])]),
            "social_links" := Obj(map["linkedin" := EitherKey(resume, "linkedin", "linkedin_url"),
                                      "github" := EitherKey(resume, "github", "github_url"),
                                      "twitter" := Str(""), "facebook" := Str(""), "instagram" := Str("")]),
            "columns" := Arr([])])
  }

  // ---------------------------------------------------------------------------
  // Placeholder table and header

  /** The placeholder table of `_generate_placeholder_content`, keyed by component type. */
  function PlaceholderTable(name: Value, show: Value -> string): map<string, Value> {
    map[
      "header" := Obj(map["title" := name, "subtitle" := Str("Professional Portfolio")]),
      "hero_banner" :=
        Obj(map["title" := name, "subtitle" := Str("Welcome to My Portfolio"), "background_image" := Str(""),
                "background_video" := Str(""),
                "cta_buttons" := Arr([Obj(map["text" := Str("Get Started"), "url" := Str("#"), "variant" := Str("primary")])]),
                "overlay_opacity" := Real(0.5)]),
      "about" := Obj(map["bio" := Str(DefaultBio(name, show))]),
      "about_me_card" :=
        Obj(map["name" := name, "title" := Str("Professional"), "bio" := Str(DefaultBio(name, show)), "image" := Str(""),
                "social_links" := Obj(map["linkedin" := Str(""), "github" := Str(""), "twitter" := Str(""), "email" := Str("")])]),
      "skills" := Obj(map["skills" := Arr(Strs(SkillDefaults))]),
      "skills_cloud" := Obj(map["skills" := Arr(Strs(CloudDefaults[..4])), "display_mode" := Str("cloud")]),
      "experience_timeline" := Obj(map["experiences" := Arr([])]),
      "projects" := Obj(map["projects" := Arr([])]),
      "project_grid" := Obj(map["projects" := Arr([]), "filter_categories" := Arr([]), "show_filters" := Bool(true)]),
      "services_section" := Obj(map["services" := Arr([])]),
      "achievements_counters" := Obj(map["counters" := Arr([])]),
      "testimonials_carousel" := Obj(map["testimonials" := Arr([])]),
      "blog_preview_grid" := Obj(map["posts" := Arr([]), "posts_per_row" := Num(3)]),
      "contact" := Obj(map["email" := Str(""), "phone" := Str(""), "linkedin" := Str(""), "github" := Str("")]),
      "contact_form" := ContactForm(""),
      "footer" :=
        Obj(map["copyright_text" := Str(Copyright(name, show)), "links" := Arr([]), "social_links" := Obj(map[]),
                "columns" := Arr([])])]
  }

  /** The table covers exactly the sixteen component types. */
  lemma PlaceholderTableKeys(name: Value, show: Value -> string)
    ensures forall t :: t in PlaceholderTable(name, show) <==> t in ComponentTypes
  {
  }

  /** `_generate_placeholder_content`: the table entry for the type, or {} for an unknown type. */
  function Placeholder(ctype: string, resume: Value, show: Value -> string): (r: Value)
    ensures ctype !in ComponentTypes ==> r == Obj(map[])
    ensures ctype in ComponentTypes ==> r == PlaceholderTable(NameOf(resume), show)[ctype]
  {
    var table := PlaceholderTable(NameOf(resume), show);
    PlaceholderTableKeys(NameOf(resume), show);
    if ctype in table then table[ctype] else Obj(map[])
  }

  /** The professional title the header uses: the resume's title, else the first experience's
      title or position, else the first sentence of the summary (at most 100 characters), else
      'Professional'. */
  function HeaderTitle(resume: Value, show: Value -> string): (r: Value)
    ensures PyTruthy(r)
    ensures PyTruthy(GetOr(resume, "title", Str(""))) ==> r == GetOr(resume, "title", Str(""))
  {
    var title := GetOr(resume, "title", Str(""));
    var fromJob :=
      if PyTruthy(title) then title
      else
        var experience := GetOr(resume, "experience", Arr([]));
        if PyTruthy(experience) && experience.Arr? then
          var latest := if experience.items[0].Obj? then experience.items[0] else Obj(map[]);
          EitherKey(latest, "title", "position")
        else title;
    var fromSummary :=
      if PyTruthy(fromJob) then fromJob
      else
        var summary := GetOr(resume, "summary", Str(""));
        if PyTruthy(summary) then Str(Take(Split(PyStr(summary, show), '.')[0], 100)) else fromJob;
    if PyTruthy(fromSummary) then fromSummary else Str("Professional")
  }

  /** `_generate_header_content` with a configured client: the AI reply is used when it is a
      dict with a 'subtitle'; otherwise the title becomes the subtitle. `reply` is the outcome of
      the JSON call (an exception counts as a reply that is not such a dict). */
  function HeaderContent(resume: Value, reply: Value, show: Value -> string): (r: Value)
    ensures r.Obj? && r.fields.Keys == {"title", "subtitle"}
    ensures reply.Obj? && "subtitle" in reply.fields ==>
              r.fields["subtitle"] == reply.fields["subtitle"] && r.fields["title"] == GetOr(reply, "title", NameOf(resume))
    ensures !(reply.Obj? && "subtitle" in reply.fields) ==>
              r.fields["title"] == NameOf(resume) && r.fields["subtitle"].Str?
              && (HeaderTitle(resume, show).Str? ==>
                    r.fields["subtitle"].s <= HeaderTitle(resume, show).s && |r.fields["subtitle"].s| <= 100)
  {
    var title := HeaderTitle(resume, show);
    if reply.Obj? && "subtitle" in reply.fields then
      Obj(map["title" := GetOr(reply, "title", NameOf(resume)), "subtitle" := reply.fields["subtitle"]])
    else
      Obj(map["title" := NameOf(resume), "subtitle" := if title.Str? then PySlice(title, 100) else Str("Professional")])
  }

  // ---------------------------------------------------------------------------
  // Dispatch

  /** The AI outputs a configured dispatch consumes: the header's JSON reply and the bio's text
      reply. */
  datatype AiReplies = AiReplies(header: Value, bio: string)

  /** `generate_component_content`: without a client, the placeholder table; with one, the
      builder for the type, or the placeholder table for an unknown type. */
  function ComponentContent(ctype: string, context: Value, configured: bool, ai: AiReplies, show: Value -> string): (r: Option<Value>)
    ensures var resume := GetOr(context, "resume_data", Obj(map[]));
            !configured || ctype !in ComponentTypes ==> r == Some(Placeholder(ctype, resume, show))
    ensures ctype !in ComponentTypes ==> r == Some(Obj(map[]))
    ensures var resume := GetOr(context, "resume_data", Obj(map[]));
            var existing := GetOr(context, "existing_content", Obj(map[]));
            r.None? <==> configured && ((ctype == "experience_timeline" && Timeline(resume, existing).None?)
                                        || (ctype == "project_grid" && ProjectGridContent(resume, existing, show).None?))
  {
    var resume := GetOr(context, "resume_data", Obj(map[]));
    var existing := GetOr(context, "existing_content", Obj(map[]));
    if !configured || ctype !in ComponentTypes then Some(Placeholder(ctype, resume, show))
    else Built(ctype, resume, existing, ai, show)
  }

  /** The per-type builders of a configured dispatch (the last branch is the unknown type);
      `None` when the builder raises. */
  function Built(ctype: string, resume: Value, existing: Value, ai: AiReplies, show: Value -> string): Option<Value> {
    if ctype == "header" then Some(HeaderContent(resume, ai.header, show))
    else if ctype == "hero_banner" then Some(HeroBannerContent(resume))
    else if ctype == "about" then Some(Obj(map["bio" := Str(ContentGenerator.Bio(resume, true, ai.bio, show))]))
    else if ctype == "about_me_card" then Some(AboutMeCardContent(resume, show))
    else if ctype == "skills" then Some(SkillsContent(resume, existing, show))
    else if ctype == "skills_cloud" then Some(SkillsCloudContent(resume, existing, show))
    else if ctype == "experience_timeline" then
      (match Timeline(resume, existing)
       case Some(entries) => Some(Obj(map["experiences" := Arr(entries)]))
       case None => None)
    else if ctype == "projects" then Some(ProjectsContent(existing))
    else if ctype == "project_grid" then ProjectGridContent(resume, existing, show)
    else if ctype == "services_section" then Some(ServicesContent(resume, existing, show))
    else if ctype == "achievements_counters" then Some(CountersContent(resume, existing))
    else if ctype == "testimonials_carousel" then Some(TestimonialsContent(existing))
    else if ctype == "blog_preview_grid" then Some(BlogPreviewContent(existing))
    else if ctype == "contact" then Some(ContactContent(resume, existing))
    else if ctype == "contact_form" then Some(ContactForm(ContactBlurb))
    else if ctype == "footer" then Some(FooterContent(resume, show))
    else Some(Placeholder(ctype, resume, show))
  }
}
