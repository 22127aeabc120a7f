/** The template chooser: the templates the server lists, the type filter built from them, the
    search over name, description and type, and the step on to the builder. */
module ChooseTemplate {
  import opened Base
  import opened Strings
  import opened Seqs

  /** A template as the chooser lists it; `templateType` is the server's type name. */
  datatype Template = Template(id: int, name: string, templateType: string, description: string)

  /** The answer to the template request: a failure, a bare list, or a paginated object whose
      `results` is a list (`Some`) or missing or not a list (`None`). */
  datatype Response = Failed | Listed(items: seq<Template>) | Paged(results: Option<seq<Template>>)

  /** `loadTemplates` followed by the array guard before rendering: the listed templates, else
      none. */
  function LoadTemplates(resp: Response): (r: seq<Template>)
    ensures resp.Listed? ==> r == resp.items
    ensures resp.Paged? && resp.results.Some? ==> r == resp.results.value
    ensures resp.Failed? || resp == Paged(None) ==> r == []
  {
    match resp
    case Failed => []
    case Listed(items) => items
    case Paged(results) => if results.Some? then results.value else []
  }

  function TypeOf(t: Template): string { t.templateType }

  /** Types are compared exactly. */
  function Same(ty: string): string { ty }

  /** The type buttons: each template type once, in the order the types first appear. */
  function UniqueTypes(templates: seq<Template>): (r: seq<string>)
    ensures forall i, j :: 0 <= i < j < |r| ==> r[i] != r[j]
    ensures forall ty :: ty in r <==> exists t :: t in templates && t.templateType == ty
  {
    var types := MapSeq(templates, TypeOf);
    var r := DedupeBy(types, Same);
    assert forall i :: 0 <= i < |types| ==> types[i] in r by {
      forall i | 0 <= i < |types| ensures types[i] in r {
        assert HasKey(r, Same, Same(types[i]));
      }
    }
    assert forall ty :: (exists t :: t in templates && t.templateType == ty) ==> ty in r by {
      forall ty | exists t :: t in templates && t.templateType == ty ensures ty in r {
        var t :| t in templates && t.templateType == ty;
        var i :| 0 <= i < |templates| && templates[i] == t;
        assert types[i] == ty;
      }
    }
    assert forall ty :: ty in r ==> exists t :: t in templates && t.templateType == ty by {
      forall ty | ty in r ensures exists t :: t in templates && t.templateType == ty {
        var i :| 0 <= i < |types| && types[i] == ty;
        assert templates[i] in templates;
      }
    }
    r
  }

  /** The type buttons follow the first occurrence of each type. */
  lemma UniqueTypesFirstSeen(templates: seq<Template>)
    ensures UniqueTypes(templates) == FirstsOf(MapSeq(templates, TypeOf), Same)
  {
    DedupeByFirsts(MapSeq(templates, TypeOf), Same);
  }

  const AllTypes: string := "all"

  /** The type filter: "all" or the template's own type. */
  predicate MatchesType(t: Template, filterType: string) {
    filterType == AllTypes || t.templateType == filterType
  }

  /** The search: an empty query, or the query found ignoring case in the name, the description
      or the type. */
  predicate MatchesSearch(t: Template, query: string) {
    query == "" || ContainsIgnoreCase(t.name, query) || ContainsIgnoreCase(t.description, query)
    || ContainsIgnoreCase(t.templateType, query)
  }

  predicate Shown(t: Template, filterType: string, query: string) {
    MatchesType(t, filterType) && MatchesSearch(t, query)
  }

  function ShownBy(filterType: string, query: string): Template -> bool {
    t => Shown(t, filterType, query)
  }

  /** `filteredTemplates`: exactly the templates passing both filters, in list order. */
  function FilteredTemplates(templates: seq<Template>, filterType: string, query: string): (r: seq<Template>)
    ensures forall t :: t in r <==> t in templates && MatchesType(t, filterType) && MatchesSearch(t, query)
  {
    var r := Filter(templates, ShownBy(filterType, query));
    assert forall t :: t in templates && Shown(t, filterType, query) ==> t in r by {
      forall t | t in templates && Shown(t, filterType, query) ensures t in r {
        var i :| 0 <= i < |templates| && templates[i] == t;
      }
    }
    r
  }

  /** The empty-query test is only a shortcut: the empty query is found in every text anyway. */
  lemma EmptyQueryFoundAnyway(t: Template)
    ensures ContainsIgnoreCase(t.name, "")
  {
    assert Lower("") == "";
    assert OccursAt(Lower(t.name), "", 0);
  }

  /** With the initial settings ("all", no query) every template is shown. */
  lemma InitialFiltersShowAll(templates: seq<Template>)
    ensures FilteredTemplates(templates, AllTypes, "") == templates
  {
    FilterAll(templates, ShownBy(AllTypes, ""));
  }

  /** No type button leads to an empty page while the search is empty. */
  lemma EveryTypeButtonShowsATemplate(templates: seq<Template>, ty: string)
    requires ty in UniqueTypes(templates)
    ensures |FilteredTemplates(templates, ty, "")| > 0
  {
    var t :| t in templates && t.templateType == ty;
    assert t in FilteredTemplates(templates, ty, "");
  }

  /** What "Continue" does. */
  datatype Continue = NoTemplateSelected | OpenBuilder(selected: Template)

  /** `handleContinue`: refused until a template is selected; otherwise the builder opens with
      the selected template. */
  function HandleContinue(selected: Option<Template>): (r: Continue)
    ensures r == NoTemplateSelected <==> selected.None?
    ensures r.OpenBuilder? ==> Some(r.selected) == selected
  {
    if selected.None? then NoTemplateSelected else OpenBuilder(selected.value)
  }
}
