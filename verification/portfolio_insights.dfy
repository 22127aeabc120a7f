/** Portfolio analysis without an AI client: the keyword and meta-description fallbacks and the
    improvement suggestions. Portfolios and components are `Json.Value` objects; `show` stands for
    Python's `str()` on non-string values. */
module PortfolioInsights {
  import opened Base
  import opened Strings
  import opened Seqs
  import opened Json

  // ---------------------------------------------------------------------------
  // Keyword and meta-description fallbacks

  function ComponentType(c: Value): Value { Get(c, "component_type") }
  function ContentOf(c: Value): Value { GetOr(c, "content", Obj(map[])) }

  predicate IsAboutType(t: Value) { t == Str("about") || t == Str("about_me_card") }
  predicate IsSkillsType(t: Value) { t == Str("skills") || t == Str("skills_cloud") }
  predicate IsProjectsType(t: Value) { t == Str("projects") || t == Str("project_grid") }

  /** The value of `field` in the content of the last component whose type satisfies `p`
      (the loop overwrites it at every match), or `default` when there is none. */
  function LastField(components: seq<Value>, p: Value -> bool, field: string, default: Value): (r: Value)
    ensures (forall i :: 0 <= i < |components| ==> !p(ComponentType(components[i]))) ==> r == default
  {
    if |components| == 0 then default
    else
      var c := components[|components| - 1];
      if p(ComponentType(c)) then GetOr(ContentOf(c), field, default)
      else LastField(components[..|components| - 1], p, field, default)
  }

  /** The keyword candidates of the fallback: up to five lower-cased title words, up to five
      lower-cased skills, the template type, 'portfolio' and 'professional'. */
  function KeywordCandidates(title: string, skills: Value, templateType: string): (r: seq<string>)
    ensures |r| >= 3 && r[|r| - 3..] == [templateType, "portfolio", "professional"]
    ensures |r| <= 13
  {
    var words := if |title| > 0 then Take(SplitWords(Lower(title)), 5) else [];
    var sk := if PyTruthy(skills) then LowerEach(Take(SkillStrings(skills), 5)) else [];
    words + sk + [templateType, "portfolio", "professional"]
  }

  /** The strings a skills value iterates over: its string elements, or its characters. */
  function SkillStrings(skills: Value): seq<string> {
    if skills.Str? then Chars(skills.s) else StrItems(skills)
  }

  function LowerEach(xs: seq<string>): (r: seq<string>)
    ensures |r| == |xs|
    ensures forall i :: 0 <= i < |r| ==> r[i] == Lower(xs[i])
  {
    seq(|xs|, i requires 0 <= i < |xs| => Lower(xs[i]))
  }

  /** `list(set(keywords))[:10]`, with the set's iteration order taken as first occurrence. */
  function FallbackKeywords(title: string, skills: Value, templateType: string): (r: seq<string>)
    ensures |r| <= 10
    ensures forall i, j :: 0 <= i < j < |r| ==> r[i] != r[j]
    ensures forall i :: 0 <= i < |r| ==> r[i] in KeywordCandidates(title, skills, templateType)
    ensures |Dedupe(KeywordCandidates(title, skills, templateType))| <= 10 ==>
              forall k :: k in KeywordCandidates(title, skills, templateType) ==> k in r
  {
    var u := Dedupe(KeywordCandidates(title, skills, templateType));
    var r := Take(u, 10);
    assert forall i :: 0 <= i < |r| ==> r[i] == u[i];
    r
  }

  /** `generate_portfolio_keywords` without a client. */
  function PortfolioKeywords(portfolio: Value, show: Value -> string): (r: seq<string>)
    ensures |r| <= 10
    ensures forall i, j :: 0 <= i < j < |r| ==> r[i] != r[j]
    ensures "portfolio" in r || |r| == 10
  {
    var title := PyStr(GetOr(portfolio, "title", Str("")), show);
    var templateType := PyStr(GetOr(portfolio, "template_type", Str("modern")), show);
    var skills := LastField(ItemsOf(GetOr(portfolio, "components", Arr([]))), IsSkillsType, "skills", Arr([]));
    var cands := KeywordCandidates(title, skills, templateType);
    assert "portfolio" in cands by { assert cands[|cands| - 2] == "portfolio"; }
    var r := FallbackKeywords(title, skills, templateType);
    assert |Dedupe(cands)| > 10 ==> |r| == 10 by {
      if |Dedupe(cands)| > 10 { assert r == Take(Dedupe(cands), 10); }
    }
    r
  }

  const MetaSuffix: string := " - Professional portfolio"

  /** `generate_meta_description` without a client: the title, a fixed phrase and, when there is
      a bio, ". " and its first 100 characters; cut to 160 characters. */
  function MetaDescription(title: string, bio: Value, show: Value -> string): (r: string)
    ensures |r| <= 160
    ensures r <= title + MetaSuffix + (if PyTruthy(bio) then ". " + PyStr(PySlice(bio, 100), show) else "")
    ensures |title| <= 135 ==> StartsWith(r, title + MetaSuffix)
    ensures !PyTruthy(bio) && |title| <= 135 ==> r == title + MetaSuffix
  {
    var desc := title + MetaSuffix + (if PyTruthy(bio) then ". " + PyStr(PySlice(bio, 100), show) else "");
    var r := Take(desc, 160);
    assert |title + MetaSuffix| <= 160 ==> (title + MetaSuffix) <= r by {
      if |title + MetaSuffix| <= 160 {
        assert desc[..|title + MetaSuffix|] == title + MetaSuffix;
      }
    }
    r
  }

  /** `generate_meta_description` for a portfolio: the last about component's bio is used.
      With a client, the reply cut to 160 characters, or a fixed sentence when it is empty. */
  function PortfolioMetaDescription(portfolio: Value, configured: bool, reply: string, show: Value -> string): (r: string)
    ensures |r| <= 160
    ensures configured && |reply| > 0 ==> r <= reply
  {
    var title := PyStr(GetOr(portfolio, "title", Str("")), show);
    var bio := LastField(ItemsOf(GetOr(portfolio, "components", Arr([]))), IsAboutType, "bio", Str(""));
    if !configured then MetaDescription(title, bio, show)
    else if |reply| > 0 then Take(reply, 160)
    else Take(title + " - Professional portfolio showcasing skills and experience", 160)
  }

  // ---------------------------------------------------------------------------
  // Improvement suggestions

  /** The `type` field of a suggestion. */
  datatype Kind = MissingComponent | EmptyContentKind | Seo | Profile

  /** The `action` field of a suggestion; `ActionName` gives the string the source emits. */
  datatype Action =
    | AddHeader | AddAbout | AddContact
    | FillAbout | FillSkills | FillProjects
    | AddMetaDescription | AddKeywords | AddProfilePhoto

  function ActionName(a: Action): string {
    match a
    case AddHeader => "add_header"
    case AddAbout => "add_about"
    case AddContact => "add_contact"
    case FillAbout => "fill_about"
    case FillSkills => "fill_skills"
    case FillProjects => "fill_projects"
    case AddMetaDescription => "add_meta_description"
    case AddKeywords => "add_keywords"
    case AddProfilePhoto => "add_profile_photo"
  }

  predicate IsMissingAction(a: Action) { a == AddHeader || a == AddAbout || a == AddContact }
  predicate IsFillAction(a: Action) { a == FillAbout || a == FillSkills || a == FillProjects }
  predicate IsProfileAction(a: Action) { a == AddMetaDescription || a == AddKeywords || a == AddProfilePhoto }

  /** The `type` of the suggestion that carries an action. */
  function KindOf(a: Action): Kind {
    if IsMissingAction(a) then MissingComponent
    else if IsFillAction(a) then EmptyContentKind
    else if a == AddProfilePhoto then Profile
    else Seo
  }

  /** The `priority` of the suggestion that carries an action. */
  function PriorityOf(a: Action): Priority {
    if IsMissingAction(a) || a == FillAbout then High
    else if a == FillSkills || a == FillProjects || a == AddMetaDescription then Medium
    else Low
  }

  /** The `message` of the suggestion that carries an action. */
  function Message(a: Action): string {
    match a
    case AddHeader => "Consider adding a header or hero banner component to your portfolio"
    case AddAbout => "Consider adding an about section to your portfolio"
    case AddContact => "Consider adding a contact section to your portfolio"
    case FillAbout => "About section is empty. Add a bio to introduce yourself."
    case FillSkills => "Skills section is empty. Add your key skills."
    case FillProjects => "Projects section is empty. Showcase your work."
    case AddMetaDescription => "Add a meta description for better SEO"
    case AddKeywords => "Add keywords for better SEO"
    case AddProfilePhoto => "Add a profile photo to personalize your portfolio"
  }

  /** One suggestion. Its type, priority and message are fixed by its action (`KindOf`,
      `PriorityOf`, `Message`); `component` is `Undefined` for the items that name no component. */
  datatype Suggestion = Suggestion(component: Value, action: Action)

  /** The actions of a suggestion list, in order. */
  function ActionsOf(r: seq<Suggestion>): (a: seq<Action>)
    ensures |a| == |r|
    ensures forall i :: 0 <= i < |r| ==> a[i] == r[i].action
  {
    seq(|r|, i requires 0 <= i < |r| => r[i].action)
  }

  lemma ActionsOfAppend(x: seq<Suggestion>, y: seq<Suggestion>)
    ensures ActionsOf(x + y) == ActionsOf(x) + ActionsOf(y)
  {
    assert forall i :: 0 <= i < |x + y| ==> ActionsOf(x + y)[i] == (ActionsOf(x) + ActionsOf(y))[i];
  }

  /** The missing-section item for a group of component types, when neither is present. */
  function MissingGroup(types: seq<Value>, first: string, second: string, component: string,
                        action: Action): (r: seq<Suggestion>)
    ensures ActionsOf(r) == if Str(first) !in types && Str(second) !in types then [action] else []
    ensures forall i :: 0 <= i < |r| ==> r[i].component == Str(component)
  {
    if Str(first) !in types && Str(second) !in types then
      [Suggestion(Str(component), action)]
    else []
  }

  /** The three missing-section checks, in order. */
  function MissingGroups(types: seq<Value>): (r: seq<Suggestion>)
    ensures |r| <= 3
    ensures AddHeader in ActionsOf(r) <==> Str("header") !in types && Str("hero_banner") !in types
    ensures AddAbout in ActionsOf(r) <==> Str("about") !in types && Str("about_me_card") !in types
    ensures AddContact in ActionsOf(r) <==> Str("contact") !in types && Str("contact_form") !in types
    ensures forall i :: 0 <= i < |r| ==> IsMissingAction(r[i].action)
  {
    var header := MissingGroup(types, "header", "hero_banner", "header", AddHeader);
    var about := MissingGroup(types, "about", "about_me_card", "about", AddAbout);
    var contact := MissingGroup(types, "contact", "contact_form", "contact", AddContact);
    InThreeParts(header, about, contact, AddHeader);
    InThreeParts(header, about, contact, AddAbout);
    InThreeParts(header, about, contact, AddContact);
    header + about + contact
  }

  /** The empty-content item for one component, if its type's main field is falsy. */
  function EmptyContentItem(c: Value): (r: seq<Suggestion>)
    ensures |r| <= 1
    ensures forall i :: 0 <= i < |r| ==> r[i].component == ComponentType(c) && IsFillAction(r[i].action)
    ensures FillAbout in ActionsOf(r) <==> IsAboutType(ComponentType(c)) && !PyTruthy(Get(ContentOf(c), "bio"))
    ensures FillSkills in ActionsOf(r) <==>
              IsSkillsType(ComponentType(c)) && !PyTruthy(Get(ContentOf(c), "skills"))
              && !(IsAboutType(ComponentType(c)) && !PyTruthy(Get(ContentOf(c), "bio")))
    ensures FillProjects in ActionsOf(r) <==>
              IsProjectsType(ComponentType(c)) && !PyTruthy(Get(ContentOf(c), "projects"))
              && !(IsAboutType(ComponentType(c)) && !PyTruthy(Get(ContentOf(c), "bio")))
              && !(IsSkillsType(ComponentType(c)) && !PyTruthy(Get(ContentOf(c), "skills")))
  {
    var t := ComponentType(c);
    var content := ContentOf(c);
    if IsAboutType(t) && !PyTruthy(Get(content, "bio")) then
      var r := [Suggestion(t, FillAbout)];
      assert ActionsOf(r) == [FillAbout];
      r
    else if IsSkillsType(t) && !PyTruthy(Get(content, "skills")) then
      var r := [Suggestion(t, FillSkills)];
      assert ActionsOf(r) == [FillSkills];
      r
    else if IsProjectsType(t) && !PyTruthy(Get(content, "projects")) then
      var r := [Suggestion(t, FillProjects)];
      assert ActionsOf(r) == [FillProjects];
      r
    else []
  }

  /** The empty-content items of the components, in component order. */
  function EmptyContent(components: seq<Value>): (r: seq<Suggestion>)
    ensures |r| <= |components|
    ensures forall i :: 0 <= i < |r| ==> IsFillAction(r[i].action)
    ensures forall a :: a in ActionsOf(r) <==> exists j :: 0 <= j < |components| && a in ActionsOf(EmptyContentItem(components[j]))
  {
    if |components| == 0 then []
    else
      var init := components[..|components| - 1];
      var last := components[|components| - 1];
      var r := EmptyContent(init) + EmptyContentItem(last);
      ActionsOfAppend(EmptyContent(init), EmptyContentItem(last));
      forall a ensures a in ActionsOf(r) <==> exists j :: 0 <= j < |components| && a in ActionsOf(EmptyContentItem(components[j])) {
        if exists j :: 0 <= j < |components| && a in ActionsOf(EmptyContentItem(components[j])) {
          var j :| 0 <= j < |components| && a in ActionsOf(EmptyContentItem(components[j]));
          if j < |components| - 1 { assert components[j] == init[j]; }
        }
        if exists j :: 0 <= j < |init| && a in ActionsOf(EmptyContentItem(init[j])) {
          var j :| 0 <= j < |init| && a in ActionsOf(EmptyContentItem(init[j]));
          assert components[j] == init[j];
        }
      }
      r
  }

  /** The SEO and profile items: each appears exactly when both of its fields are falsy. */
  function ProfileItems(portfolio: Value): (r: seq<Suggestion>)
    ensures forall i :: 0 <= i < |r| ==> IsProfileAction(r[i].action)
    ensures AddMetaDescription in ActionsOf(r) <==>
              !PyTruthy(Get(portfolio, "meta_description")) && !PyTruthy(Get(portfolio, "seo_description"))
    ensures AddKeywords in ActionsOf(r) <==>
              !PyTruthy(Get(portfolio, "meta_keywords")) && !PyTruthy(Get(portfolio, "seo_keywords"))
    ensures AddProfilePhoto in ActionsOf(r) <==> !PyTruthy(Get(portfolio, "profile_photo"))
  {
    var description :=
      if !PyTruthy(Get(portfolio, "meta_description")) && !PyTruthy(Get(portfolio, "seo_description")) then
        [Suggestion(Undefined, AddMetaDescription)]
      else [];
    var keywords :=
      if !PyTruthy(Get(portfolio, "meta_keywords")) && !PyTruthy(Get(portfolio, "seo_keywords")) then
        [Suggestion(Undefined, AddKeywords)]
      else [];
    var photo :=
      if !PyTruthy(Get(portfolio, "profile_photo")) then
        [Suggestion(Undefined, AddProfilePhoto)]
      else [];
    assert ActionsOf(description) == if |description| > 0 then [AddMetaDescription] else [];
    assert ActionsOf(keywords) == if |keywords| > 0 then [AddKeywords] else [];
    assert ActionsOf(photo) == if |photo| > 0 then [AddProfilePhoto] else [];
    ActionsOfAppend(description, keywords);
    ActionsOfAppend(description + keywords, photo);
    description + keywords + photo
  }

  /** The component types of a portfolio, in order. */
  function TypesOf(components: seq<Value>): (r: seq<Value>)
    ensures |r| == |components|
    ensures forall i :: 0 <= i < |r| ==> r[i] == ComponentType(components[i])
  {
    seq(|components|, i requires 0 <= i < |components| => ComponentType(components[i]))
  }

  /** The components of a portfolio (`portfolio.get('components', [])`). */
  function ComponentsOf(portfolio: Value): seq<Value> {
    ItemsOf(GetOr(portfolio, "components", Arr([])))
  }

  /** `suggest_improvements`: missing sections, then empty sections, then SEO and photo. */
  function SuggestImprovements(portfolio: Value): (r: seq<Suggestion>)
    ensures |r| <= 3 + |ComponentsOf(portfolio)| + 3
  {
    var cs := ComponentsOf(portfolio);
    MissingGroups(TypesOf(cs)) + EmptyContent(cs) + ProfileItems(portfolio)
  }

  /** Where each action of the suggestion list comes from: each kind of action has one source. */
  lemma SuggestionActions(portfolio: Value, a: Action)
    ensures var cs := ComponentsOf(portfolio);
            a in ActionsOf(SuggestImprovements(portfolio)) <==>
              if IsFillAction(a) then a in ActionsOf(EmptyContent(cs))
              else if IsProfileAction(a) then a in ActionsOf(ProfileItems(portfolio))
              else a in ActionsOf(MissingGroups(TypesOf(cs)))
  {
    var cs := ComponentsOf(portfolio);
    InThreeParts(MissingGroups(TypesOf(cs)), EmptyContent(cs), ProfileItems(portfolio), a);
    OnlyOwnPart(portfolio, a);
  }

  /** Each part of the suggestion list holds only its own kind of action. */
  lemma OnlyOwnPart(portfolio: Value, a: Action)
    ensures var cs := ComponentsOf(portfolio);
            (a in ActionsOf(MissingGroups(TypesOf(cs))) ==> IsMissingAction(a))
            && (a in ActionsOf(EmptyContent(cs)) ==> IsFillAction(a))
            && (a in ActionsOf(ProfileItems(portfolio)) ==> IsProfileAction(a))
  {
    var cs := ComponentsOf(portfolio);
    if !IsMissingAction(a) { NotMissing(TypesOf(cs), a); }
    if !IsFillAction(a) { NotEmptyContent(cs, a); }
    if !IsProfileAction(a) { NotProfile(portfolio, a); }
  }

  lemma NotMissing(types: seq<Value>, a: Action)
    requires !IsMissingAction(a)
    ensures a !in ActionsOf(MissingGroups(types))
  {
    var m := MissingGroups(types);
    forall i | 0 <= i < |m| ensures ActionsOf(m)[i] != a {
      assert ActionsOf(m)[i] == m[i].action;
    }
  }

  lemma NotEmptyContent(cs: seq<Value>, a: Action)
    requires !IsFillAction(a)
    ensures a !in ActionsOf(EmptyContent(cs))
  {
    var e := EmptyContent(cs);
    forall i | 0 <= i < |e| ensures ActionsOf(e)[i] != a {
      assert ActionsOf(e)[i] == e[i].action;
    }
  }

  lemma NotProfile(portfolio: Value, a: Action)
    requires !IsProfileAction(a)
    ensures a !in ActionsOf(ProfileItems(portfolio))
  {
    var p := ProfileItems(portfolio);
    forall i | 0 <= i < |p| ensures ActionsOf(p)[i] != a {
      assert ActionsOf(p)[i] == p[i].action;
    }
  }

  lemma InThreeParts(m: seq<Suggestion>, e: seq<Suggestion>, p: seq<Suggestion>, a: Action)
    ensures a in ActionsOf(m + e + p) <==> a in ActionsOf(m) || a in ActionsOf(e) || a in ActionsOf(p)
  {
    ActionsOfAppend(m, e);
    ActionsOfAppend(m + e, p);
  }

  /** A missing-section item appears exactly when neither type of its group is present. */
  lemma SuggestMissingIff(portfolio: Value)
    ensures var types := TypesOf(ComponentsOf(portfolio));
            var r := ActionsOf(SuggestImprovements(portfolio));
            (AddHeader in r <==> Str("header") !in types && Str("hero_banner") !in types)
            && (AddAbout in r <==> Str("about") !in types && Str("about_me_card") !in types)
            && (AddContact in r <==> Str("contact") !in types && Str("contact_form") !in types)
  {
    SuggestionActions(portfolio, AddHeader);
    SuggestionActions(portfolio, AddAbout);
    SuggestionActions(portfolio, AddContact);
  }

  /** The SEO and photo items appear exactly when their fields are all falsy. */
  lemma SuggestProfileIff(portfolio: Value)
    ensures var r := ActionsOf(SuggestImprovements(portfolio));
            (AddMetaDescription in r <==>
               !PyTruthy(Get(portfolio, "meta_description")) && !PyTruthy(Get(portfolio, "seo_description")))
            && (AddKeywords in r <==>
               !PyTruthy(Get(portfolio, "meta_keywords")) && !PyTruthy(Get(portfolio, "seo_keywords")))
            && (AddProfilePhoto in r <==> !PyTruthy(Get(portfolio, "profile_photo")))
  {
    SuggestionActions(portfolio, AddMetaDescription);
    SuggestionActions(portfolio, AddKeywords);
    SuggestionActions(portfolio, AddProfilePhoto);
  }

  /** An empty-about item appears exactly when some about component has a falsy bio. */
  lemma SuggestFillAboutIff(portfolio: Value)
    ensures var cs := ComponentsOf(portfolio);
            FillAbout in ActionsOf(SuggestImprovements(portfolio)) <==>
              exists j :: 0 <= j < |cs| && IsAboutType(ComponentType(cs[j])) && !PyTruthy(Get(ContentOf(cs[j]), "bio"))
  {
    var cs := ComponentsOf(portfolio);
    SuggestionActions(portfolio, FillAbout);
    assert FillAbout in ActionsOf(EmptyContent(cs)) <==>
           exists j :: 0 <= j < |cs| && FillAbout in ActionsOf(EmptyContentItem(cs[j]));
  }

  /** The position of an action's group in the list: missing sections, empty sections, profile. */
  function Stage(a: Action): nat {
    if IsMissingAction(a) then 0 else if IsFillAction(a) then 1 else 2
  }

  /** The suggestions come grouped: every missing-section item precedes every empty-section item,
      which precedes every SEO or photo item. */
  lemma SuggestionsOrdered(portfolio: Value)
    ensures var r := SuggestImprovements(portfolio);
            forall i, j :: 0 <= i < j < |r| ==> Stage(r[i].action) <= Stage(r[j].action)
  {
    var cs := ComponentsOf(portfolio);
    var m := MissingGroups(TypesOf(cs));
    var e := EmptyContent(cs);
    var p := ProfileItems(portfolio);
    GroupedStages(m, e, p);
  }

  lemma GroupedStages(m: seq<Suggestion>, e: seq<Suggestion>, p: seq<Suggestion>)
    requires forall i :: 0 <= i < |m| ==> IsMissingAction(m[i].action)
    requires forall i :: 0 <= i < |e| ==> IsFillAction(e[i].action)
    requires forall i :: 0 <= i < |p| ==> IsProfileAction(p[i].action)
    ensures var r := m + e + p;
            forall i, j :: 0 <= i < j < |r| ==> Stage(r[i].action) <= Stage(r[j].action)
  {
    var r := m + e + p;
    forall i | 0 <= i < |r| ensures Stage(r[i].action) == if i < |m| then 0 else if i < |m| + |e| then 1 else 2 {
      if i < |m| + |e| {
        assert r[i] == (m + e)[i];
        if i < |m| { assert (m + e)[i] == m[i]; } else { assert (m + e)[i] == e[i - |m|]; }
      } else {
        assert r[i] == p[i - |m + e|];
      }
    }
  }
}
