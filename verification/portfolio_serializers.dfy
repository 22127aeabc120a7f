/** `PortfolioComponentSerializer.validate`'s order assignment and the cache-busted photo URL of
    `PortfolioSerializer`. */
module PortfolioSerializers {
  import opened Base
  import opened Strings
  import opened PortfolioModels

  /** Django's `Max('order')` aggregate: None over no rows. */
  function MaxOrder(orders: seq<int>): (r: Option<int>)
    ensures r.None? <==> |orders| == 0
    ensures r.Some? ==> r.value in orders && forall x :: x in orders ==> x <= r.value
  {
    if |orders| == 0 then None
    else
      match MaxOrder(orders[..|orders| - 1])
      case None => Some(orders[|orders| - 1])
      case Some(m) =>
        assert orders == orders[..|orders| - 1] + [orders[|orders| - 1]];
        Some(Max(m, orders[|orders| - 1]))
  }

  /** `aggregate(...)['max_order'] or -1` as written: Python's `or` also replaces a maximum of 0,
      which is falsy. */
  function NextOrderAsWritten(others: seq<int>): int {
    var m := MaxOrder(others);
    (if m.None? || m.value == 0 then -1 else m.value) + 1
  }

  /** The next order as the comment above the check intends: one past the largest order, or 0
      for a portfolio without other components. */
  function NextOrder(others: seq<int>): (r: int)
    ensures r !in others
    ensures |others| == 0 ==> r == 0
    ensures forall x :: x in others ==> x < r
    ensures (forall x :: x in others ==> x >= 0) ==> r >= 0
  {
    match MaxOrder(others)
    case None => 0
    case Some(m) => m + 1
  }

  /** `validate` as written. `provided` is `attrs['order']` when the key is present, `others` the
      orders of the portfolio's other components; without a portfolio the attributes pass
      unchanged. The result is the order left in `attrs`. */
  function AssignOrderAsWritten(hasPortfolio: bool, provided: Option<int>, others: seq<int>): Option<int> {
    if !hasPortfolio then provided
    else if provided.Some? && provided.value !in others then provided
    else Some(NextOrderAsWritten(others))
  }

  /** `validate` with the intended fallback: a free provided order is kept; a colliding or absent
      one is replaced by an order no other component of the portfolio uses. */
  function AssignOrder(hasPortfolio: bool, provided: Option<int>, others: seq<int>): (r: Option<int>)
    ensures !hasPortfolio ==> r == provided
    ensures hasPortfolio ==> r.Some? && r.value !in others
    ensures hasPortfolio && provided.Some? && provided.value !in others ==> r == provided
    ensures hasPortfolio && (provided.None? || provided.value in others) ==> forall x :: x in others ==> x < r.value
  {
    if !hasPortfolio then provided
    else if provided.Some? && provided.value !in others then provided
    else Some(NextOrder(others))
  }

  /** The two agree unless the largest other order is exactly 0. */
  lemma AsWrittenAgreesUnlessMaxZero(hasPortfolio: bool, provided: Option<int>, others: seq<int>)
    requires MaxOrder(others) != Some(0)
    ensures AssignOrderAsWritten(hasPortfolio, provided, others) == AssignOrder(hasPortfolio, provided, others)
  {
  }

  /** A lone sibling at order 0: a new component asking for order 0, or for no order, is given 0
      again, so two components of the same type share order 0. */
  lemma AsWrittenReusesZero()
    ensures AssignOrderAsWritten(true, Some(0), [0]) == Some(0)
    ensures AssignOrderAsWritten(true, None, [0]) == Some(0)
    ensures var sibling := Component(1, 7, "about", 0, true);
            !ComponentsValid([sibling, sibling.(id := 2, order := AssignOrderAsWritten(true, None, [0]).value)])
  {
    assert MaxOrder([0]) == Some(0);
    var sibling := Component(1, 7, "about", 0, true);
    var cs := [sibling, sibling.(id := 2, order := 0)];
    assert Clash(cs[0], cs[1]);
  }

  /** Creating a component through the corrected `validate` keeps the component table valid,
      whatever order the request asked for (the field itself rejects negative orders). */
  lemma {:induction false} AssignOrderKeepsValid(cs: seq<Component>, c: Component, provided: Option<int>)
    requires ComponentsValid(cs)
    requires provided.Some? ==> provided.value >= 0
    ensures var o := AssignOrder(true, provided, OtherOrders(cs, c.portfolio, None)).value;
            ComponentsValid(cs + [c.(order := o)])
  {
    var others := OtherOrders(cs, c.portfolio, None);
    var o := AssignOrder(true, provided, others).value;
    var c' := c.(order := o);
    var cs' := cs + [c'];
    forall x | x in others
      ensures x >= 0
    {
      var i :| 0 <= i < |cs| && cs[i].portfolio == c.portfolio && cs[i].order == x;
    }
    assert o >= 0;
    forall i, j | 0 <= i < j < |cs'|
      ensures !Clash(cs'[i], cs'[j])
    {
      if j == |cs| {
        if cs[i].portfolio == c.portfolio {
          assert cs[i].order in others;
        }
      } else {
        assert cs'[i] == cs[i] && cs'[j] == cs[j];
      }
    }
  }

  /** The text before the first '?': the URL without its query. */
  function PathOf(url: string): (r: string)
    ensures r <= url
    ensures '?' !in r
    ensures '?' in url ==> |r| < |url| && url[|r|] == '?'
    ensures '?' !in url ==> r == url
  {
    if |url| == 0 then ""
    else if url[0] == '?' then ""
    else [url[0]] + PathOf(url[1..])
  }

  /** Appends `v=<stamp>` as a query parameter, with '&' when the URL already has a query. */
  function CacheBust(url: string, stamp: string): string {
    url + [if '?' in url then '&' else '?'] + "v=" + stamp
  }

  /** `get_profile_photo_url`. `absolute` is `request.build_absolute_uri` when a request is in the
      context; `stamp` is the rendered `updated_at.timestamp()` when there is one. */
  function ProfilePhotoUrl(photo: Option<string>, absolute: Option<string -> string>, stamp: Option<string>): (r: Option<string>)
    ensures r.None? <==> photo.None?
    ensures photo.Some? ==> var full := if absolute.Some? then absolute.value(photo.value) else photo.value;
                            r == Some(if stamp.Some? then CacheBust(full, stamp.value) else full)
  {
    match photo
    case None => None
    case Some(url) =>
      var full := if absolute.Some? then absolute.value(url) else url;
      match stamp
      case None => Some(full)
      case Some(t) => Some(CacheBust(full, t))
  }

  /** The cache-buster never changes the URL's path and keeps the URL as a prefix; the stamp is
      joined with '&' to an existing query, or starts a new one with '?'. */
  lemma CacheBustKeepsPath(url: string, t: string)
    ensures var r := CacheBust(url, t);
            PathOf(r) == PathOf(url) && |r| > |url| && r[..|url|] == url
            && r[|url|] == (if '?' in url then '&' else '?')
  {
    var q := [if '?' in url then '&' else '?'] + "v=" + t;
    assert CacheBust(url, t) == url + q;
    PathOfAppend(url, q);
  }

  /** The stamp is always the last query parameter. */
  lemma CacheBustEndsWithStamp(url: string, t: string)
    ensures EndsWith(CacheBust(url, t), "v=" + t)
  {
    var r := CacheBust(url, t);
    assert r == (url + [if '?' in url then '&' else '?']) + ("v=" + t);
    assert r[|r| - |"v=" + t|..] == "v=" + t;
  }

  /** Appending to a URL that already has a query leaves its path alone; appending text that starts
      with '?' to one without a query makes the whole URL its path. */
  lemma {:induction false} PathOfAppend(u: string, q: string)
    requires |q| > 0 && ('?' in u || q[0] == '?')
    ensures PathOf(u + q) == PathOf(u)
  {
    if |u| == 0 {
    } else if u[0] == '?' {
    } else {
      assert (u + q)[1..] == u[1..] + q;
      PathOfAppend(u[1..], q);
    }
  }
}
