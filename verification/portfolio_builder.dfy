/** The portfolio builder page's component list: adding a component with the next order and
    its type's default content, reordering by drag and drop, deleting, toggling visibility,
    replacing an edited component, and acting on an AI suggestion. Backend calls are replaced
    by their outcomes, given as parameters. */
module PortfolioBuilder {
  import opened Base
  import opened Strings
  import opened Seqs
  import opened Json
  import PortfolioInsights

  /** The component types the builder offers (`COMPONENT_TYPES`). */
  datatype BuilderType =
    | HeroBanner | AboutMeCard | SkillsCloud | ExperienceTimeline | ProjectGrid | ServicesSection
    | AchievementsCounters | TestimonialsCarousel | BlogPreviewGrid | ContactForm | Footer

  function BuilderTypeName(t: BuilderType): string {
    match t
    case HeroBanner => "hero_banner"
    case AboutMeCard => "about_me_card"
    case SkillsCloud => "skills_cloud"
    case ExperienceTimeline => "experience_timeline"
    case ProjectGrid => "project_grid"
    case ServicesSection => "services_section"
    case AchievementsCounters => "achievements_counters"
    case TestimonialsCarousel => "testimonials_carousel"
    case BlogPreviewGrid => "blog_preview_grid"
    case ContactForm => "contact_form"
    case Footer => "footer"
  }

  /** The builder type a name denotes, if any. */
  function ParseBuilderType(s: string): (r: Option<BuilderType>)
    ensures forall t :: r == Some(t) <==> s == BuilderTypeName(t)
  {
    if s == "hero_banner" then Some(HeroBanner)
    else if s == "about_me_card" then Some(AboutMeCard)
    else if s == "skills_cloud" then Some(SkillsCloud)
    else if s == "experience_timeline" then Some(ExperienceTimeline)
    else if s == "project_grid" then Some(ProjectGrid)
    else if s == "services_section" then Some(ServicesSection)
    else if s == "achievements_counters" then Some(AchievementsCounters)
    else if s == "testimonials_carousel" then Some(TestimonialsCarousel)
    else if s == "blog_preview_grid" then Some(BlogPreviewGrid)
    else if s == "contact_form" then Some(ContactForm)
    else if s == "footer" then Some(Footer)
    else None
  }

  /** A component in the builder. `id` is the backend id once the component is saved. */
  datatype Component = Component(id: Option<int>, componentType: string, order: int, isVisible: bool, content: Value)

  /** The builder's state: the portfolio's id once saved, its title, its components and the
      component open in the editor. */
  datatype Builder = Builder(portfolioId: Option<int>, title: string, components: seq<Component>,
                             editing: Option<Component>)

  /** A truthy id (`if (c.id)`): present and not 0. */
  predicate HasId(id: Option<int>) {
    id.Some? && id.value != 0
  }

  // ---------------------------------------------------------------------------------------
  // Adding

  /** The largest order among the components. */
  function MaxOrder(cs: seq<Component>): (m: int)
    requires |cs| > 0
    ensures forall i :: 0 <= i < |cs| ==> cs[i].order <= m
    ensures exists i :: 0 <= i < |cs| && cs[i].order == m
  {
    if |cs| == 1 then cs[0].order
    else
      var rest := MaxOrder(cs[1..]);
      assert forall i :: 1 <= i < |cs| ==> cs[i] == cs[1..][i - 1];
      Max(cs[0].order, rest)
  }

  /** The order a new component gets: one more than the largest, or 0 for the first. */
  function NextOrder(cs: seq<Component>): (n: int)
    ensures forall i :: 0 <= i < |cs| ==> cs[i].order < n
    ensures |cs| == 0 ==> n == 0
    ensures |cs| > 0 ==> exists i :: 0 <= i < |cs| && cs[i].order == n - 1
  {
    if |cs| > 0 then MaxOrder(cs) + 1 else 0
  }

  /** `getDefaultContent`: the starting content of each builder type, {} for any other type. */
  function DefaultContent(componentType: string): (v: Value)
    ensures v.Obj?
    ensures v.fields == map[] <==> ParseBuilderType(componentType).None?
  {
    match ParseBuilderType(componentType)
    case None => Obj(map[])
    case Some(t) => Obj(Defaults(t))
  }

  const EmptyText: Value := Str("")

  /** The default content table. */
  function Defaults(t: BuilderType): (m: map<string, Value>)
    ensures m != map[]
  {
    var m := match t
      case HeroBanner =>
        var cta := Obj(map["text" := Str("Get Started"), "url" := Str("#"), "variant" := Str("primary")]);
        map["title" := EmptyText, "subtitle" := EmptyText, "background_image" := EmptyText,
            "background_video" := EmptyText, "cta_buttons" := Arr([cta]), "overlay_opacity" := Real(0.5)]
      case AboutMeCard =>
        var social := Obj(map["linkedin" := EmptyText, "github" := EmptyText, "twitter" := EmptyText, "email" := EmptyText]);
        map["bio" := EmptyText, "image" := EmptyText, "name" := EmptyText, "title" := EmptyText, "social_links" := social]
      case SkillsCloud => map["skills" := Arr([]), "display_mode" := Str("cloud")]
      case ExperienceTimeline => map["experiences" := Arr([])]
      case ProjectGrid => map["projects" := Arr([]), "filter_categories" := Arr([]), "show_filters" := Bool(true)]
      case ServicesSection => map["services" := Arr([])]
      case AchievementsCounters => map["counters" := Arr([])]
      case TestimonialsCarousel => map["testimonials" := Arr([])]
      case BlogPreviewGrid => map["posts" := Arr([]), "posts_per_row" := Num(3)]
      case ContactForm =>
        var info := Obj(map["email" := EmptyText, "phone" := EmptyText, "location" := EmptyText,
                            "linkedin" := EmptyText, "github" := EmptyText, "website" := EmptyText]);
        map["title" := Str("Contact Info"), "description" := EmptyText,
            "fields" := Arr([Str("name"), Str("email"), Str("message")]),
            "submit_button_text" := Str("Send Message"), "contact_info" := info]
      case Footer =>
        map["copyright_text" := EmptyText, "links" := Arr([]), "social_links" := Obj(map[]), "columns" := Arr([])];
    assert |m.Keys| > 0 by {
      assert FirstKey(t) in m;
    }
    m
  }

  /** A key every default content of the type has. */
  function FirstKey(t: BuilderType): string {
    match t
    case HeroBanner => "title"
    case AboutMeCard => "bio"
    case SkillsCloud => "skills"
    case ExperienceTimeline => "experiences"
    case ProjectGrid => "projects"
    case ServicesSection => "services"
    case AchievementsCounters => "counters"
    case TestimonialsCarousel => "testimonials"
    case BlogPreviewGrid => "posts"
    case ContactForm => "title"
    case Footer => "copyright_text"
  }

  /** The creation request an add sends: the portfolio id the URL names (`None` when it reads
      `undefined`) and the component. */
  datatype CreateRequest = CreateRequest(portfolioId: Option<int>, component: Component)

  datatype AddOutcome = AddOutcome(state: Builder, request: Option<CreateRequest>)

  /** The component an add creates: the next order, visible, with its type's default content. */
  function NewComponent(b: Builder, componentType: string): Component {
    Component(None, componentType, NextOrder(b.components), true, DefaultContent(componentType))
  }

  /** Sends the creation request to `target` and, when the backend returns the new id,
      appends the component and opens it in the editor. */
  function CreateIn(b: Builder, componentType: string, target: Option<int>, created: Option<int>): (r: AddOutcome)
    ensures r.request == Some(CreateRequest(target, NewComponent(b, componentType)))
    ensures r.state.portfolioId == b.portfolioId && r.state.title == b.title
    ensures created.None? ==> r.state == b
    ensures created.Some? ==> r.state.components == b.components + [NewComponent(b, componentType).(id := created)]
  {
    var c := NewComponent(b, componentType);
    match created
    case None => AddOutcome(b, Some(CreateRequest(target, c)))
    case Some(id) =>
      var added := c.(id := Some(id));
      AddOutcome(b.(components := b.components + [added], editing := Some(added)), Some(CreateRequest(target, c)))
  }

  /** `handleAddComponent` as written. An unsaved portfolio needs a non-blank title and is
      saved first (`saved` is the id the backend returns, `None` when saving fails); the
      creation request then still names the portfolio id read before the save. `created` is
      the new component's id, `None` when creating fails. */
  function AddComponentAsWritten(b: Builder, componentType: string, saved: Option<int>, created: Option<int>): (r: AddOutcome)
    ensures !HasId(b.portfolioId) && JsTrim(b.title) == "" ==> r == AddOutcome(b, None)
    ensures r.request.Some? ==> r.request.value.portfolioId == b.portfolioId
  {
    if !HasId(b.portfolioId) then
      if JsTrim(b.title) == "" then AddOutcome(b, None)
      else match saved
        case None => AddOutcome(b, None)
        case Some(id) => CreateIn(b.(portfolioId := Some(id)), componentType, b.portfolioId, created)
    else CreateIn(b, componentType, b.portfolioId, created)
  }

  /** On a new portfolio the save succeeds, yet the component is created under no portfolio. */
  lemma AddAsWrittenLosesSavedId(b: Builder, componentType: string, id: int, created: Option<int>)
    requires b.portfolioId == None && JsTrim(b.title) != "" && id != 0
    ensures AddComponentAsWritten(b, componentType, Some(id), created).state.portfolioId == Some(id)
    ensures AddComponentAsWritten(b, componentType, Some(id), created).request.value.portfolioId == None
  {
  }

  /** `handleAddComponent` with the creation request naming the portfolio just saved. */
  function AddComponent(b: Builder, componentType: string, saved: Option<int>, created: Option<int>): (r: AddOutcome)
    ensures !HasId(b.portfolioId) && JsTrim(b.title) == "" ==> r == AddOutcome(b, None)
    ensures r.request.Some? ==> r.request.value.portfolioId == r.state.portfolioId
    ensures r.request.Some? ==> r.request.value.component == NewComponent(b, componentType)
    ensures r.state.components == b.components
            || r.state.components == b.components + [NewComponent(b, componentType).(id := created)]
    ensures !HasId(b.portfolioId) && saved.None? ==> r == AddOutcome(b, None)
    ensures !HasId(b.portfolioId) && JsTrim(b.title) != "" && saved.Some? ==>
              r.request.Some? && r.request.value.portfolioId == saved && r.state.portfolioId == saved
    ensures HasId(b.portfolioId) ==> r.request.Some? && r.request.value.portfolioId == b.portfolioId
  {
    if !HasId(b.portfolioId) then
      if JsTrim(b.title) == "" then AddOutcome(b, None)
      else match saved
        case None => AddOutcome(b, None)
        case Some(id) => CreateIn(b.(portfolioId := Some(id)), componentType, Some(id), created)
    else CreateIn(b, componentType, b.portfolioId, created)
  }

  /** A created component is appended after the others, visible, with its type's default
      content and an order larger than any other; the earlier components are untouched. */
  lemma AddedComponentComesLast(b: Builder, componentType: string, saved: Option<int>, id: int)
    requires HasId(b.portfolioId) || (JsTrim(b.title) != "" && saved.Some?)
    ensures var cs := AddComponent(b, componentType, saved, Some(id)).state.components;
            |cs| == |b.components| + 1 && cs[..|b.components|] == b.components
            && var c := cs[|b.components|];
               c.id == Some(id) && c.isVisible && c.componentType == componentType
               && c.content == DefaultContent(componentType)
               && forall i :: 0 <= i < |b.components| ==> b.components[i].order < c.order
  {
    var cs := AddComponent(b, componentType, saved, Some(id)).state.components;
    assert cs == b.components + [NewComponent(b, componentType).(id := Some(id))];
    assert cs[..|b.components|] == b.components;
  }

  // ---------------------------------------------------------------------------------------
  // Reordering, deleting, toggling

  /** Every component's order set to its position (`comp.order = idx`). */
  function Renumbered(cs: seq<Component>): (r: seq<Component>)
    ensures |r| == |cs|
    ensures forall i :: 0 <= i < |cs| ==> r[i] == cs[i].(order := i)
  {
    seq(|cs|, i requires 0 <= i < |cs| => cs[i].(order := i))
  }

  /** `handleDragEnd`: list items are identified by their position, so `active` and `over` are
      indices. Without a target, or onto itself, nothing changes; otherwise the dragged
      component moves to the target's place and every order becomes the position. */
  function DragEnd(cs: seq<Component>, active: nat, over: Option<nat>): (r: seq<Component>)
    requires active < |cs| && (over.Some? ==> over.value < |cs|)
    ensures |r| == |cs|
    ensures over.None? || over.value == active ==> r == cs
    ensures over.Some? && over.value != active ==>
              (forall i :: 0 <= i < |r| ==> r[i].order == i)
              && r[over.value] == cs[active].(order := over.value)
  {
    match over
    case None => cs
    case Some(target) =>
      if target == active then cs else Renumbered(Move(cs, active, target))
  }

  /** A component with its order left out. */
  function Unordered(c: Component): Component {
    c.(order := 0)
  }

  /** A drop moves components without adding or losing any: apart from their orders the
      result is a permutation of the list, and dragging back restores the arrangement. */
  lemma DragEndPermutes(cs: seq<Component>, active: nat, target: nat)
    requires active < |cs| && target < |cs| && active != target
    ensures multiset(MapSeq(DragEnd(cs, active, Some(target)), Unordered)) == multiset(MapSeq(cs, Unordered))
    ensures Move(Move(cs, active, target), target, active) == cs
  {
    MoveBack(cs, active, target);
    var m := Move(cs, active, target);
    assert MapSeq(Renumbered(m), Unordered) == MapSeq(m, Unordered);
    MoveMapSeq(cs, active, target, Unordered);
    MovePermutes(MapSeq(cs, Unordered), active, target);
  }

  /** `handleDeleteComponent`. A component saved in a saved portfolio is deleted on the
      backend first (`deleted` is whether that succeeds), and a failure leaves the list as it
      was; otherwise the component at `index` is removed. The editor closes when it shows the
      removed component. */
  function DeleteComponent(b: Builder, index: nat, deleted: bool): (r: Builder)
    requires index < |b.components|
    ensures HasId(b.portfolioId) && HasId(b.components[index].id) && !deleted ==> r == b
    ensures !(HasId(b.portfolioId) && HasId(b.components[index].id) && !deleted) ==>
              r.components == RemoveAt(b.components, index)
              && (r.editing.Some? <==> b.editing.Some? && b.editing.value != b.components[index])
    ensures r.portfolioId == b.portfolioId && r.title == b.title
  {
    if HasId(b.portfolioId) && HasId(b.components[index].id) && !deleted then b
    else
      var editing := if b.editing == Some(b.components[index]) then None else b.editing;
      b.(components := RemoveAt(b.components, index), editing := editing)
  }

  /** Deleting removes exactly one entry: every other component keeps its place relative to
      the rest, and the removed one is one fewer in the list. */
  lemma DeleteRemovesOne(b: Builder, index: nat)
    requires index < |b.components|
    ensures !HasId(b.portfolioId) ==>
              multiset(DeleteComponent(b, index, false).components) + multiset{b.components[index]}
              == multiset(b.components)
  {
    var cs := b.components;
    assert cs == cs[..index] + [cs[index]] + cs[index + 1..];
    assert RemoveAt(cs, index) == cs[..index] + cs[index + 1..];
  }

  /** `handleToggleVisibility`: the component at `index` changes visibility, nothing else does;
      the local list changes whatever the backend answers. */
  function ToggleVisibility(cs: seq<Component>, index: nat): (r: seq<Component>)
    requires index < |cs|
    ensures |r| == |cs|
    ensures r[index].isVisible == !cs[index].isVisible
    ensures r[index].(isVisible := cs[index].isVisible) == cs[index]
    ensures forall i :: 0 <= i < |cs| && i != index ==> r[i] == cs[i]
  {
    cs[index := cs[index].(isVisible := !cs[index].isVisible)]
  }

  /** Toggling twice restores the list. */
  lemma ToggleTwice(cs: seq<Component>, index: nat)
    requires index < |cs|
    ensures ToggleVisibility(ToggleVisibility(cs, index), index) == cs
  {
  }

  // ---------------------------------------------------------------------------------------
  // Updating

  /** The entry an update replaces: the same id, or, when neither has an id, the same type and
      order. */
  predicate SameEntry(c: Component, u: Component) {
    (HasId(c.id) && HasId(u.id) && c.id.value == u.id.value)
    || (!HasId(c.id) && !HasId(u.id) && c.componentType == u.componentType && c.order == u.order)
  }

  /** Every matching entry replaced by `u`. */
  function Replaced(cs: seq<Component>, u: Component): (r: seq<Component>)
    ensures |r| == |cs|
    ensures forall i :: 0 <= i < |cs| ==> r[i] == if SameEntry(cs[i], u) then u else cs[i]
  {
    seq(|cs|, i requires 0 <= i < |cs| => if SameEntry(cs[i], u) then u else cs[i])
  }

  /** `handleUpdateComponent`. Nothing happens before the portfolio is saved or when the
      backend save fails (`ok`). A component without an id is created and takes the id the
      backend returns (`created`); the matching entries are then replaced, and the editor
      shows the update when it shows the same component. */
  function UpdateComponent(b: Builder, u: Component, ok: bool, created: Option<int>): (r: Builder)
    ensures !HasId(b.portfolioId) || !ok ==> r == b
    ensures HasId(b.portfolioId) && ok ==>
              var saved := if HasId(u.id) then u else u.(id := created);
              r.components == Replaced(b.components, saved)
  {
    if !HasId(b.portfolioId) || !ok then b
    else
      var saved := if HasId(u.id) then u else u.(id := created);
      var editing :=
        match b.editing
        case Some(e) =>
          if (HasId(e.id) && HasId(saved.id) && e.id.value == saved.id.value)
             || (!HasId(e.id) && !HasId(saved.id) && e.componentType == saved.componentType)
          then Some(saved) else b.editing
        case None => None;
      b.(components := Replaced(b.components, saved), editing := editing)
  }

  /** Replacing is idempotent: an update applied twice is applied once. */
  lemma ReplacedIdempotent(cs: seq<Component>, u: Component)
    ensures Replaced(Replaced(cs, u), u) == Replaced(cs, u)
  {
    assert SameEntry(u, u);
  }

  /** An update changes only the entries it matches. */
  lemma UpdateKeepsOthers(b: Builder, u: Component, created: Option<int>, i: nat)
    requires HasId(b.portfolioId) && HasId(u.id) && i < |b.components|
    requires !HasId(b.components[i].id) || b.components[i].id.value != u.id.value
    ensures UpdateComponent(b, u, true, created).components[i] == b.components[i]
  {
  }

  /** A component saved for the first time from the editor receives its new id before the list
      is updated, so its id-less entry matches neither rule and the list stays as it was. */
  lemma FirstSaveLeavesListUnchanged(b: Builder, u: Component, id: int)
    requires HasId(b.portfolioId) && !HasId(u.id) && id != 0
    requires forall i :: 0 <= i < |b.components| ==> !HasId(b.components[i].id) || b.components[i].id.value != id
    ensures UpdateComponent(b, u, true, Some(id)).components == b.components
  {
  }

  // ---------------------------------------------------------------------------------------
  // AI suggestions

  /** What the builder does with a suggestion. */
  datatype Effect =
    | Unsupported(componentType: string)   // "Unsupported suggestion" notice
    | Add(t: BuilderType)
    | Edit(c: Component)
    | UseSeoSettings                       // "Please use the SEO Settings section"
    | UseProfilePhoto                      // "Please use the Profile Photo section"
    | NoEffect

  /** The suggestion names that stand for builder types. */
  function Alias(key: string): Option<string> {
    if key == "header" then Some("hero_banner")
    else if key == "about" then Some("about_me_card")
    else if key == "contact" then Some("contact_form")
    else if key == "skills" then Some("skills_cloud")
    else if key == "projects" then Some("project_grid")
    else if key == "blog" then Some("blog_preview_grid")
    else if key == "testimonials" then Some("testimonials_carousel")
    else if key == "services" then Some("services_section")
    else if key == "experience" then Some("experience_timeline")
    else None
  }

  /** The component type an add_/fill_ action names: the prefix removed and an alias resolved. */
  function ActionComponentType(action: string): string
    requires StartsWith(action, "add_") || StartsWith(action, "fill_")
  {
    var key := if StartsWith(action, "add_") then action[4..] else action[5..];
    Alias(key).GetOr(key)
  }

  predicate OfType(t: BuilderType, c: Component) {
    c.componentType == BuilderTypeName(t)
  }

  /** The add_/fill_ branch: an unknown type is unsupported; add_ adds the type, fill_ edits
      the first component of that type or adds one when there is none. */
  function ComponentAction(action: string, cs: seq<Component>): (e: Effect)
    requires StartsWith(action, "add_") || StartsWith(action, "fill_")
    ensures e.Add? || e.Edit? || e.Unsupported?
    ensures e.Edit? ==> e.c in cs && StartsWith(action, "fill_")
    ensures e.Unsupported? <==> ParseBuilderType(ActionComponentType(action)).None?
  {
    var name := ActionComponentType(action);
    match ParseBuilderType(name)
    case None => Unsupported(name)
    case Some(t) =>
      if StartsWith(action, "add_") then Add(t)
      else match FirstWhere(cs, c => OfType(t, c))
        case Some(c) => Edit(c)
        case None => Add(t)
  }

  /** `handleSuggestionAction` as written: the add_/fill_ branch comes first, so the later
      branches for add_meta_description, add_keywords and add_profile_photo are never reached
      and are left out here. */
  function SuggestionActionAsWritten(action: string, cs: seq<Component>): (e: Effect)
    ensures !e.UseSeoSettings? && !e.UseProfilePhoto?
    ensures !(StartsWith(action, "add_") || StartsWith(action, "fill_")) ==> e == NoEffect
  {
    if StartsWith(action, "add_") || StartsWith(action, "fill_") then ComponentAction(action, cs)
    else NoEffect
  }

  /** The SEO and photo suggestions the backend makes are rejected as unsupported components. */
  lemma AsWrittenRejectsSeoSuggestions(cs: seq<Component>)
    ensures SuggestionActionAsWritten("add_meta_description", cs) == Unsupported("meta_description")
    ensures SuggestionActionAsWritten("add_keywords", cs) == Unsupported("keywords")
    ensures SuggestionActionAsWritten("add_profile_photo", cs) == Unsupported("profile_photo")
  {
    MetaDescriptionRejected(cs);
    KeywordsRejected(cs);
    ProfilePhotoRejected(cs);
  }

  lemma MetaDescriptionRejected(cs: seq<Component>)
    ensures SuggestionActionAsWritten("add_meta_description", cs) == Unsupported("meta_description")
  {
    AddActionRejected("add_meta_description", "meta_description", cs);
  }

  lemma KeywordsRejected(cs: seq<Component>)
    ensures SuggestionActionAsWritten("add_keywords", cs) == Unsupported("keywords")
  {
    AddActionRejected("add_keywords", "keywords", cs);
  }

  lemma ProfilePhotoRejected(cs: seq<Component>)
    ensures SuggestionActionAsWritten("add_profile_photo", cs) == Unsupported("profile_photo")
  {
    AddActionRejected("add_profile_photo", "profile_photo", cs);
  }

  /** An add_ action whose key is neither an alias nor a builder type is unsupported. */
  lemma AddActionRejected(action: string, key: string, cs: seq<Component>)
    requires action == "add_" + key && Alias(key).None? && ParseBuilderType(key).None?
    ensures SuggestionActionAsWritten(action, cs) == Unsupported(key)
  {
    assert StartsWith(action, "add_") && action[4..] == key;
  }

  /** `handleSuggestionAction` with the SEO and photo hints checked before the component
      branch, as their messages intend. */
  function SuggestionAction(action: string, cs: seq<Component>): (e: Effect)
    ensures action == "add_meta_description" || action == "add_keywords" ==> e == UseSeoSettings
    ensures action == "add_profile_photo" ==> e == UseProfilePhoto
  {
    if action == "add_meta_description" || action == "add_keywords" then UseSeoSettings
    else if action == "add_profile_photo" then UseProfilePhoto
    else SuggestionActionAsWritten(action, cs)
  }

  /** Every suggestion the backend makes is acted on: none is reported as unsupported. */
  lemma BackendSuggestionsSupported(a: PortfolioInsights.Action, cs: seq<Component>)
    ensures !SuggestionAction(PortfolioInsights.ActionName(a), cs).Unsupported?
    ensures !SuggestionAction(PortfolioInsights.ActionName(a), cs).NoEffect?
  {
    match a
    case AddHeader => AddHeaderSupported(cs);
    case AddAbout => AddAboutSupported(cs);
    case AddContact => AddContactSupported(cs);
    case FillAbout => FillAboutSupported(cs);
    case FillSkills => FillSkillsSupported(cs);
    case FillProjects => FillProjectsSupported(cs);
    case _ =>
  }

  lemma AddHeaderSupported(cs: seq<Component>)
    ensures !SuggestionAction("add_header", cs).Unsupported? && !SuggestionAction("add_header", cs).NoEffect?
  {
    AliasedActionSupported("add_header", "add_", "header", cs);
  }

  lemma AddAboutSupported(cs: seq<Component>)
    ensures !SuggestionAction("add_about", cs).Unsupported? && !SuggestionAction("add_about", cs).NoEffect?
  {
    AliasedActionSupported("add_about", "add_", "about", cs);
  }

  lemma AddContactSupported(cs: seq<Component>)
    ensures !SuggestionAction("add_contact", cs).Unsupported? && !SuggestionAction("add_contact", cs).NoEffect?
  {
    AliasedActionSupported("add_contact", "add_", "contact", cs);
  }

  lemma FillAboutSupported(cs: seq<Component>)
    ensures !SuggestionAction("fill_about", cs).Unsupported? && !SuggestionAction("fill_about", cs).NoEffect?
  {
    AliasedActionSupported("fill_about", "fill_", "about", cs);
  }

  lemma FillSkillsSupported(cs: seq<Component>)
    ensures !SuggestionAction("fill_skills", cs).Unsupported? && !SuggestionAction("fill_skills", cs).NoEffect?
  {
    AliasedActionSupported("fill_skills", "fill_", "skills", cs);
  }

  lemma FillProjectsSupported(cs: seq<Component>)
    ensures !SuggestionAction("fill_projects", cs).Unsupported? && !SuggestionAction("fill_projects", cs).NoEffect?
  {
    AliasedActionSupported("fill_projects", "fill_", "projects", cs);
  }

  /** An add_ or fill_ action on an alias of a builder type is acted on. */
  lemma AliasedActionSupported(action: string, prefix: string, key: string, cs: seq<Component>)
    requires prefix == "add_" || prefix == "fill_"
    requires action == prefix + key
    requires Alias(key).Some? && ParseBuilderType(Alias(key).value).Some?
    requires action != "add_meta_description" && action != "add_keywords" && action != "add_profile_photo"
    ensures !SuggestionAction(action, cs).Unsupported? && !SuggestionAction(action, cs).NoEffect?
  {
    assert StartsWith(action, prefix) && action[|prefix|..] == key;
    if prefix == "fill_" {
      assert !StartsWith(action, "add_") by {
        assert action[0] == 'f';
      }
    }
  }
}
