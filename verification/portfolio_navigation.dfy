/** The navigation bar of a rendered portfolio: one entry per visible section, in section order. */
module PortfolioNavigation {
  import opened Base
  import opened Seqs

  /** A component as the navigation bar reads it. */
  datatype NavComponent = NavComponent(id: Option<int>, componentType: string, order: int, isVisible: bool)

  /** A navigation entry: the section it scrolls to, its label and whether it is the active one. */
  datatype Entry = Entry(componentType: string, name: string, active: bool)

  function Order(c: NavComponent): int { c.order }

  predicate Visible(c: NavComponent) { c.isVisible }

  /** `visibleComponents`: the visible components sorted by order, a stable sort. */
  function VisibleComponents(cs: seq<NavComponent>): (r: seq<NavComponent>)
    ensures multiset(r) == multiset(Filter(cs, Visible))
    ensures SortedBy(r, Order)
    ensures forall c :: c in r <==> c in cs && c.isVisible
  {
    var vis := Filter(cs, Visible);
    var r := SortBy(vis, Order);
    assert forall c :: c in r <==> c in vis by {
      forall c ensures c in r <==> c in vis {
        assert c in r <==> c in multiset(r);
        assert c in vis <==> c in multiset(vis);
      }
    }
    assert forall c :: c in vis <==> c in cs && c.isVisible by {
      forall c | c in cs && c.isVisible ensures c in vis {
        var i :| 0 <= i < |cs| && cs[i] == c;
      }
      forall c | c in vis ensures c in cs && c.isVisible {
        var i :| 0 <= i < |vis| && vis[i] == c;
      }
    }
    r
  }

  /** Visible sections sharing an order keep the order they had in the input. */
  lemma EqualOrdersKeepInputOrder(cs: seq<NavComponent>, k: int)
    ensures WithKey(VisibleComponents(cs), Order, k) == WithKey(Filter(cs, Visible), Order, k)
  {
    SortByStable(Filter(cs, Visible), Order, k);
  }

  /** The label of a section type: the fixed name of a known type, else the type itself. */
  function DisplayName(componentType: string): (r: string)
    ensures r != "" || componentType == ""
    ensures componentType !in {"header", "about", "skills", "projects", "blog", "contact"} ==> r == componentType
  {
    match componentType
    case "header" => "Home"
    case "about" => "About"
    case "skills" => "Skills"
    case "projects" => "Projects"
    case "blog" => "Blog"
    case "contact" => "Contact"
    case _ => componentType
  }

  function EntryOf(c: NavComponent, activeSection: Option<string>): Entry {
    Entry(c.componentType, DisplayName(c.componentType), activeSection == Some(c.componentType))
  }

  /** The bar: nothing without a visible section, else one entry per visible section in order,
      exactly the entries for the active section marked active. */
  function Render(cs: seq<NavComponent>, activeSection: Option<string>): (r: Option<seq<Entry>>)
    ensures r.None? <==> forall i :: 0 <= i < |cs| ==> !cs[i].isVisible
    ensures r.Some? ==> |r.value| == |VisibleComponents(cs)|
    ensures r.Some? ==> forall i :: 0 <= i < |r.value| ==>
              r.value[i].componentType == VisibleComponents(cs)[i].componentType
              && (r.value[i].active <==> activeSection == Some(r.value[i].componentType))
  {
    var vis := VisibleComponents(cs);
    assert |vis| == 0 <==> forall i :: 0 <= i < |cs| ==> !cs[i].isVisible by {
      if |vis| > 0 {
        assert vis[0] in vis;
      }
      if exists i :: 0 <= i < |cs| && cs[i].isVisible {
        var i :| 0 <= i < |cs| && cs[i].isVisible;
        assert cs[i] in vis;
      }
    }
    if |vis| == 0 then None
    else Some(MapSeq(vis, c => EntryOf(c, activeSection)))
  }
}
