/** `BlogPost.save` and the posts' default ordering. Timestamps are integers; the clock is the
    `now` parameter. */
module BlogModels {
  import opened Base
  import opened Slugs

  datatype BlogPost = BlogPost(user: nat, title: string, slug: string, published: bool,
                               publishedDate: Option<int>, createdAt: int)

  /** The `published_date` rule: stamped with the current time when the post is published and has
      no date; otherwise left as it is. */
  function StampPublished(published: bool, date: Option<int>, now: int): (r: Option<int>)
    ensures date.Some? ==> r == date
    ensures r.None? <==> !published && date.None?
    ensures published && date.None? ==> r == Some(now)
  {
    if published && date.None? then Some(now) else date
  }

  /** `BlogPost.save`: the slug is unique among the same user's posts only (`rows` are all stored
      posts); then the publication date rule. Title, owner and flags are unchanged. */
  method SavePost(post: BlogPost, slugify: string -> string, rows: seq<SlugRow>, now: int) returns (saved: BlogPost)
    ensures saved.user == post.user && saved.title == post.title && saved.published == post.published
    ensures saved.createdAt == post.createdAt
    ensures post.slug != "" ==> saved.slug == post.slug
    ensures post.slug == "" ==> saved.slug !in SlugsOf(rows, post.user)
    ensures post.slug == "" ==> FirstFree(slugify(post.title), SlugsOf(rows, post.user), saved.slug)
    ensures saved.publishedDate == StampPublished(post.published, post.publishedDate, now)
  {
    var slug := SaveSlug(post.slug, post.title, slugify, SlugsOf(rows, post.user));
    saved := post.(slug := slug, publishedDate := StampPublished(post.published, post.publishedDate, now));
  }

  /** One save of a post's history: whether it was published then, and the clock. */
  datatype Save = Save(published: bool, now: int)

  /** The publication date after a history of saves, oldest first. */
  function DateAfter(saves: seq<Save>, date: Option<int>): Option<int> {
    if |saves| == 0 then date
    else
      var last := saves[|saves| - 1];
      StampPublished(last.published, DateAfter(saves[..|saves| - 1], date), last.now)
  }

  /** A post that starts without a date ends up dated exactly when some save saw it published, and
      the date is the time of the first such save: unpublishing never clears it and republishing
      never moves it. */
  lemma {:induction false} DateIsFirstPublishedSave(saves: seq<Save>)
    ensures DateAfter(saves, None).None? <==> forall i :: 0 <= i < |saves| ==> !saves[i].published
    ensures forall i :: 0 <= i < |saves| && saves[i].published && (forall j :: 0 <= j < i ==> !saves[j].published)
                        ==> DateAfter(saves, None) == Some(saves[i].now)
  {
    if |saves| > 0 {
      var init := saves[..|saves| - 1];
      DateIsFirstPublishedSave(init);
      assert forall i :: 0 <= i < |init| ==> init[i] == saves[i];
    }
  }

  /** `ordering = ['-published_date', '-created_at']`: newer publication first, then newer
      creation. A missing date sorts as the smallest value, after every dated post. */
  predicate PostBefore(a: BlogPost, b: BlogPost) {
    if a.publishedDate != b.publishedDate then DateLater(a.publishedDate, b.publishedDate)
    else a.createdAt >= b.createdAt
  }

  predicate DateLater(x: Option<int>, y: Option<int>) {
    match (x, y)
    case (Some(u), Some(v)) => u >= v
    case (Some(_), None) => true
    case (None, Some(_)) => false
    case (None, None) => true
  }

  /** The ordering is total and transitive, so any two posts are comparable and a sorted list is
      consistent. */
  lemma PostBeforeIsTotalPreorder(a: BlogPost, b: BlogPost, c: BlogPost)
    ensures PostBefore(a, b) || PostBefore(b, a)
    ensures PostBefore(a, b) && PostBefore(b, c) ==> PostBefore(a, c)
  {
  }
}
