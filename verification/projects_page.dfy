/** The projects page: the user's projects (or demo projects when there are none), searched by
    title and description, and the editor's save and guard rules. */
module ProjectsPage {
  import opened Base
  import opened Strings
  import opened Seqs
  import opened JsText
  import TagEditing

  /** A project as the page lists it; `tags` are the tag names. */
  datatype Project = Project(id: int, title: string, description: string, tags: seq<string>, order: int)

  /** Demo projects carry negative ids. */
  predicate IsDemo(p: Project) { p.id < 0 }

  /** The demo order of the i-th demo project: the first four are numbered 1 to 4, the last two
      carry 0. */
  function MockOrder(i: nat): int { if i < 4 then i + 1 else 0 }

  /** The six demo projects shown when there is nothing else, with ids -1 to -6 (their texts and
      tags are left abstract). */
  function MockProjects(): (r: seq<Project>)
    ensures |r| == 6
    ensures forall i :: 0 <= i < |r| ==> IsDemo(r[i]) && r[i].id == -(i + 1)
  {
    seq(6, i requires 0 <= i < 6 => Project(-(i + 1), "", "", [], MockOrder(i)))
  }

  /** The result of asking the server for the project list. */
  datatype Fetch = Failed | Listed(data: seq<Project>) | NotAList

  /** `loadProjects`: the server's projects when it sends a non-empty list, else the demo
      projects. */
  function LoadProjects(f: Fetch): (r: seq<Project>)
    ensures |r| > 0
    ensures f.Listed? && |f.data| > 0 ==> r == f.data
    ensures !(f.Listed? && |f.data| > 0) ==> r == MockProjects()
  {
    match f
    case Listed(data) => if |data| > 0 then data else MockProjects()
    case _ => MockProjects()
  }

  function ProjectTitle(p: Project): string { p.title }

  function ProjectDescription(p: Project): string { p.description }

  /** `filteredProjects`: the search over titles and descriptions. */
  function Search(projects: seq<Project>, query: string): seq<Project> {
    TitleSearch(projects, ProjectTitle, ProjectDescription, query)
  }

  /** The empty string occurs in every text. */
  lemma ContainsEmpty(s: string)
    ensures Contains(s, "")
  {
    assert OccursAt(s, "", 0);
  }

  /** An empty search keeps every project. */
  lemma EmptySearchKeepsAll(projects: seq<Project>)
    ensures Search(projects, "") == projects
  {
    forall i | 0 <= i < |projects| ensures TitleOrTextMatches(projects[i], ProjectTitle, ProjectDescription, "") {
      ContainsEmpty(Lower(projects[i].title));
      assert Lower("") == "";
    }
    FilterAll(projects, TitleOrTextMatching(ProjectTitle, ProjectDescription, ""));
  }

  /** Edit and delete are refused for demo projects. */
  datatype Guard = DemoRefused | Allowed

  /** `handleEdit` / `handleDelete` before anything else happens. */
  function ModifyGuard(id: int): (r: Guard)
    ensures r == DemoRefused <==> id < 0
  {
    if id < 0 then DemoRefused else Allowed
  }

  /** Whatever the server returns, the page never lets a demo project be modified. */
  lemma DemoProjectsAreReadOnly(f: Fetch, i: nat)
    requires !(f.Listed? && |f.data| > 0) && i < |LoadProjects(f)|
    ensures ModifyGuard(LoadProjects(f)[i].id) == DemoRefused
  {
  }

  /** The editor form: the text fields as typed, the tag field, and the order. */
  datatype Form = Form(title: string, description: string, tagField: string, order: int)

  /** `handleCreate`: an empty form whose order puts the new project after the current ones. */
  function NewForm(projects: seq<Project>): (r: Form)
    ensures r.order == |projects| && r.title == "" && r.tagField == ""
  {
    Form("", "", "", |projects|)
  }

  /** `handleEdit`: the project's fields, with its tag names joined by ", ". */
  function EditForm(p: Project): Form {
    Form(p.title, p.description, TagEditing.JoinTags(p.tags), p.order)
  }

  /** What a save sends: the form with its tag field split into names. */
  datatype SaveRequest = SaveRequest(title: string, description: string, tagNames: seq<string>, order: int)

  datatype SaveError = TitleRequired

  /** `handleSave`: a title of only white space is refused; otherwise the tag field becomes its
      trimmed comma-separated pieces, empty ones included. */
  function Save(f: Form): (r: Result<SaveRequest, SaveError>)
    ensures r.Err? <==> JsTrim(f.title) == ""
    ensures r.Ok? ==> r.value.title == f.title && r.value.tagNames == TagEditing.ParseTags(f.tagField)
                      && r.value.order == f.order
  {
    if JsTrim(f.title) == "" then Err(TitleRequired)
    else Ok(SaveRequest(f.title, f.description, TagEditing.ParseTags(f.tagField), f.order))
  }

  /** Opening a project in the editor and saving it unchanged sends back its own tag names. */
  lemma EditThenSaveKeepsTags(p: Project)
    requires JsTrim(p.title) != ""
    requires forall i :: 0 <= i < |p.tags| ==> PlainName(p.tags[i])
    requires p.tags != [""]
    ensures Save(EditForm(p)) == Ok(SaveRequest(p.title, p.description, p.tags, p.order))
  {
    TagEditing.ParseJoinRoundTrip(p.tags);
  }
}
