/** The project grid section of the templates: the technology filter buttons it offers and the
    projects a chosen filter shows. */
module ProjectGrid {
  import opened Base
  import opened Seqs

  /** A project as the grid sees it: only its optional technology list decides filtering. */
  datatype Project = Project(title: Option<string>, technologies: Option<seq<string>>)

  /** The filter every grid starts with, which shows all projects. */
  const AllCategory: string := "all"

  /** A project's technologies; a missing list contributes none. */
  function TechsOf(p: Project): seq<string> {
    if p.technologies.Some? then p.technologies.value else []
  }

  /** Whether some project lists technology `t`. */
  predicate Uses(projects: seq<Project>, t: string) {
    exists i :: 0 <= i < |projects| && t in TechsOf(projects[i])
  }

  /** Every technology of every project, project by project, repeats included. */
  function AllTechs(projects: seq<Project>): seq<string> {
    if |projects| == 0 then [] else AllTechs(projects[..|projects| - 1]) + TechsOf(projects[|projects| - 1])
  }

  lemma {:induction false} AllTechsMembers(projects: seq<Project>)
    ensures forall t :: t in AllTechs(projects) <==> Uses(projects, t)
  {
    if |projects| > 0 {
      var init := projects[..|projects| - 1];
      AllTechsMembers(init);
      forall t | Uses(projects, t) ensures t in AllTechs(projects) {
        var i :| 0 <= i < |projects| && t in TechsOf(projects[i]);
        if i < |projects| - 1 {
          assert init[i] == projects[i];
          assert Uses(init, t);
        }
      }
      forall t | t in AllTechs(projects) ensures Uses(projects, t) {
        if t in AllTechs(init) {
          var i :| 0 <= i < |init| && t in TechsOf(init[i]);
          assert projects[i] == init[i];
        }
      }
    }
  }

  /** The identity on technology names, the de-duplication key of the category set. */
  function Same(t: string): string { t }

  /** `categories`: a `Set` filled project by project, so each technology once, in the order it
      is first met. */
  function Categories(projects: seq<Project>): (r: seq<string>)
    ensures forall i, j :: 0 <= i < j < |r| ==> r[i] != r[j]
    ensures forall t :: t in r <==> Uses(projects, t)
  {
    var all := AllTechs(projects);
    AllTechsMembers(projects);
    var r := DedupeBy(all, Same);
    assert forall t :: t in all ==> t in r by {
      forall t | t in all ensures t in r {
        var i :| 0 <= i < |all| && all[i] == t;
        assert HasKey(r, Same, Same(all[i]));
      }
    }
    r
  }

  /** The categories are the technologies kept at their first occurrence, in that order. */
  lemma CategoriesFirstSeen(projects: seq<Project>)
    ensures Categories(projects) == FirstsOf(AllTechs(projects), Same)
  {
    DedupeByFirsts(AllTechs(projects), Same);
  }

  /** `project.technologies && project.technologies.includes(category)`. */
  predicate Includes(p: Project, category: string) {
    p.technologies.Some? && category in p.technologies.value
  }

  function Matching(category: string): Project -> bool {
    p => Includes(p, category)
  }

  /** `filteredProjects`: all projects under "all", else exactly those listing the category,
      in their original order. */
  function FilteredProjects(projects: seq<Project>, selected: string): (r: seq<Project>)
    ensures selected == AllCategory ==> r == projects
    ensures selected != AllCategory ==>
              (forall i :: 0 <= i < |r| ==> Includes(r[i], selected) && r[i] in projects)
              && (forall i :: 0 <= i < |projects| && Includes(projects[i], selected) ==> projects[i] in r)
  {
    if selected == AllCategory then projects else Filter(projects, Matching(selected))
  }

  /** Filtering commutes with concatenation, so the selected projects keep their relative order. */
  lemma FilterKeepsOrder(a: seq<Project>, b: seq<Project>, selected: string)
    ensures FilteredProjects(a + b, selected) == FilteredProjects(a, selected) + FilteredProjects(b, selected)
  {
    if selected != AllCategory {
      FilterAppend(a, b, Matching(selected));
    }
  }

  /** Every offered filter button selects at least one project. */
  lemma EveryCategoryShowsAProject(projects: seq<Project>, c: string)
    requires c in Categories(projects)
    ensures |FilteredProjects(projects, c)| > 0
  {
    if c != AllCategory {
      var i :| 0 <= i < |projects| && c in TechsOf(projects[i]);
      assert Includes(projects[i], c);
    }
  }

  /** What the grid renders: the filter bar (if shown) with its category buttons, and the
      selected projects. */
  datatype Grid = Grid(filterBar: bool, categories: seq<string>, shown: seq<Project>)

  /** Whether some project lists at least one technology. */
  predicate AnyTech(projects: seq<Project>) {
    exists i :: 0 <= i < |projects| && |TechsOf(projects[i])| > 0
  }

  /** There are categories exactly when some project lists a technology. */
  lemma CategoriesEmptyIff(projects: seq<Project>)
    ensures |Categories(projects)| > 0 <==> AnyTech(projects)
  {
    var cats := Categories(projects);
    if AnyTech(projects) {
      var i :| 0 <= i < |projects| && |TechsOf(projects[i])| > 0;
      assert Uses(projects, TechsOf(projects[i])[0]);
      assert TechsOf(projects[i])[0] in cats;
    }
    if |cats| > 0 {
      assert Uses(projects, cats[0]);
    }
  }

  /** The section: nothing for an empty list; the filter bar only when filters are enabled and
      some project has a technology. */
  function Render(projects: seq<Project>, showFilters: bool, selected: string): (r: Option<Grid>)
    ensures r.None? <==> |projects| == 0
    ensures r.Some? ==> (r.value.filterBar <==> showFilters && AnyTech(projects))
    ensures r.Some? ==> r.value.categories == Categories(projects)
    ensures r.Some? ==> r.value.shown == FilteredProjects(projects, selected)
  {
    if |projects| == 0 then None
    else
      var cats := Categories(projects);
      CategoriesEmptyIff(projects);
      Some(Grid(showFilters && |cats| > 0, cats, FilteredProjects(projects, selected)))
  }
}
