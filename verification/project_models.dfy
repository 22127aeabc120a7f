/** `Project.save` and the projects' default ordering. */
module ProjectModels {
  import opened Slugs

  datatype Project = Project(user: nat, title: string, slug: string, featured: bool, order: int, createdAt: int)

  /** `Project.save`: an existing slug is preserved; an empty one becomes the first free candidate
      among the same user's projects. Nothing else changes. */
  method SaveProject(p: Project, slugify: string -> string, rows: seq<SlugRow>) returns (saved: Project)
    ensures saved == p.(slug := saved.slug)
    ensures p.slug != "" ==> saved.slug == p.slug
    ensures p.slug == "" ==> saved.slug !in SlugsOf(rows, p.user)
    ensures p.slug == "" ==> FirstFree(slugify(p.title), SlugsOf(rows, p.user), saved.slug)
  {
    var slug := SaveSlug(p.slug, p.title, slugify, SlugsOf(rows, p.user));
    saved := p.(slug := slug);
  }

  /** Another user's project with the same slug does not block it: only the owner's slugs are
      taken into account. */
  lemma OtherUsersDoNotBlock(rows: seq<SlugRow>, user: nat, other: nat, s: string)
    requires other != user
    ensures s in SlugsOf(rows + [SlugRow(other, s)], user) <==> s in SlugsOf(rows, user)
  {
    var rows' := rows + [SlugRow(other, s)];
    if s in SlugsOf(rows', user) {
      var i :| 0 <= i < |rows'| && rows'[i].user == user && rows'[i].slug == s;
      assert rows[i] == rows'[i];
    }
    if s in SlugsOf(rows, user) {
      var i :| 0 <= i < |rows| && rows[i].user == user && rows[i].slug == s;
      assert rows'[i] == rows[i];
    }
  }

  /** `ordering = ['-featured', 'order', '-created_at']`: featured first, then ascending order,
      then newest. */
  predicate ProjectBefore(a: Project, b: Project) {
    if a.featured != b.featured then a.featured
    else if a.order != b.order then a.order < b.order
    else a.createdAt >= b.createdAt
  }

  /** A featured project precedes every unfeatured one, whatever their orders. */
  lemma FeaturedFirst(a: Project, b: Project)
    requires a.featured && !b.featured
    ensures ProjectBefore(a, b) && !ProjectBefore(b, a)
  {
  }

  lemma ProjectBeforeIsTotalPreorder(a: Project, b: Project, c: Project)
    ensures ProjectBefore(a, b) || ProjectBefore(b, a)
    ensures ProjectBefore(a, b) && ProjectBefore(b, c) ==> ProjectBefore(a, c)
  {
  }
}
