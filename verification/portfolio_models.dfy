/** Portfolios and their components as stored: the global slug rule of `Portfolio.save` and the
    constraints the component table enforces. */
module PortfolioModels {
  import opened Base
  import opened Slugs

  datatype Portfolio = Portfolio(user: nat, title: string, slug: string)

  /** A stored component: its primary key, the portfolio it belongs to, its type and order. */
  datatype Component = Component(id: nat, portfolio: nat, componentType: string, order: int, isVisible: bool)

  /** `Portfolio.save`: the slug loop checks the slugs of every user's portfolios, not only the
      owner's. Nothing but the slug changes. */
  method SavePortfolio(p: Portfolio, slugify: string -> string, allSlugs: set<string>) returns (saved: Portfolio)
    ensures saved.user == p.user && saved.title == p.title
    ensures p.slug != "" ==> saved == p
    ensures p.slug == "" ==> saved.slug !in allSlugs
    ensures p.slug == "" ==> FirstFree(slugify(p.title), allSlugs, saved.slug)
  {
    var slug := SaveSlug(p.slug, p.title, slugify, allSlugs);
    saved := p.(slug := slug);
  }

  /** Two components clash when they share portfolio, type and order. */
  predicate Clash(a: Component, b: Component) {
    a.portfolio == b.portfolio && a.componentType == b.componentType && a.order == b.order
  }

  /** The table's constraints: every order is at least 0, and no two rows clash. */
  predicate ComponentsValid(cs: seq<Component>) {
    (forall i :: 0 <= i < |cs| ==> cs[i].order >= 0)
    && (forall i, j :: 0 <= i < j < |cs| ==> !Clash(cs[i], cs[j]))
  }

  /** The orders of the components of `portfolio`, leaving out the row with primary key `self`
      (the `.exclude(pk=...)` of the serializer). */
  function OtherOrders(cs: seq<Component>, portfolio: nat, self: Option<nat>): (r: seq<int>)
    ensures forall i :: 0 <= i < |cs| && cs[i].portfolio == portfolio && Some(cs[i].id) != self ==> cs[i].order in r
    ensures forall x :: x in r ==> exists i :: 0 <= i < |cs| && cs[i].portfolio == portfolio && cs[i].order == x
  {
    if |cs| == 0 then []
    else
      var rest := OtherOrders(cs[..|cs| - 1], portfolio, self);
      var c := cs[|cs| - 1];
      assert forall i :: 0 <= i < |cs| - 1 ==> cs[..|cs| - 1][i] == cs[i];
      if c.portfolio == portfolio && Some(c.id) != self then rest + [c.order] else rest
  }
}
