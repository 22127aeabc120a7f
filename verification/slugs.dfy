/** The slug loop shared by portfolios, blog posts and projects: try the slugified title, then
    the title with "-1", "-2", ... appended, and take the first candidate nobody uses. Django's
    `slugify` is an oracle; only the candidates and the set of slugs already taken matter. */
module Slugs {
  import opened Strings

  /** The `k`-th candidate: the base itself, then `base-k`. */
  function Candidate(base: string, k: nat): (r: string)
    ensures k == 0 ==> r == base
    ensures k > 0 ==> |r| > |base| + 1 && r[|base|] == '-' && r[..|base|] == base
  {
    if k == 0 then base else base + "-" + NatToString(k)
  }

  /** Different counters give different candidates, so the loop never revisits a slug. */
  lemma CandidateInjective(base: string, i: nat, j: nat)
    requires Candidate(base, i) == Candidate(base, j)
    ensures i == j
  {
    if i > 0 && j > 0 {
      assert NatToString(i) == Candidate(base, i)[|base| + 1..];
      assert NatToString(j) == Candidate(base, j)[|base| + 1..];
      NatToStringInjective(i, j);
    }
  }

  /** A subset is no larger than its superset. */
  lemma {:induction false} SubsetSize<T>(a: set<T>, b: set<T>)
    requires a <= b
    ensures |a| <= |b|
    decreases a
  {
    if a != {} {
      var x :| x in a;
      SubsetSize(a - {x}, b - {x});
    }
  }

  /** `s` is one of the candidates tried before the `k`-th. */
  predicate TriedBefore(base: string, s: string, k: nat) {
    exists j :: 0 <= j < k && s == Candidate(base, j)
  }

  /** The `while ... exists(): slug = f"{base}-{counter}"` loop. It returns the slug and its counter:
      the slug is free, and every earlier candidate was taken, so the counter is the smallest free
      one. */
  method FreeSlug(base: string, taken: set<string>) returns (slug: string, k: nat)
    ensures slug == Candidate(base, k)
    ensures slug !in taken
    ensures forall j :: 0 <= j < k ==> Candidate(base, j) in taken
    ensures k <= |taken|
  {
    slug, k := base, 0;
    ghost var seen: set<string> := {};
    while slug in taken
      invariant slug == Candidate(base, k)
      invariant seen <= taken && |seen| == k && k <= |taken|
      invariant forall j :: 0 <= j < k ==> Candidate(base, j) in taken
      invariant forall s :: s in seen ==> TriedBefore(base, s, k)
      decreases |taken| - |seen|
    {
      NotTriedYet(base, seen, k);
      assert |seen + {slug}| == |seen| + 1;
      SubsetSize(seen + {slug}, taken);
      TriedGrows(base, seen, k);
      seen := seen + {slug};
      k := k + 1;
      slug := Candidate(base, k);
    }
  }

  /** The `k`-th candidate is none of those tried before it. */
  lemma NotTriedYet(base: string, seen: set<string>, k: nat)
    requires forall s :: s in seen ==> TriedBefore(base, s, k)
    ensures Candidate(base, k) !in seen
  {
    forall s | s in seen
      ensures s != Candidate(base, k)
    {
      var j :| 0 <= j < k && s == Candidate(base, j);
      if s == Candidate(base, k) {
        CandidateInjective(base, j, k);
      }
    }
  }

  /** Once the `k`-th candidate is tried too, everything seen was tried before the next one. */
  lemma TriedGrows(base: string, seen: set<string>, k: nat)
    requires forall s :: s in seen ==> TriedBefore(base, s, k)
    ensures forall s :: s in seen + {Candidate(base, k)} ==> TriedBefore(base, s, k + 1)
  {
    forall s | s in seen + {Candidate(base, k)}
      ensures TriedBefore(base, s, k + 1)
    {
      if s != Candidate(base, k) {
        var j :| 0 <= j < k && s == Candidate(base, j);
      }
    }
  }

  /** `slug` is a candidate whose every predecessor is taken: the one the loop stops at. */
  ghost predicate FirstFree(base: string, taken: set<string>, slug: string) {
    exists k: nat :: slug == Candidate(base, k) && forall j :: 0 <= j < k ==> Candidate(base, j) in taken
  }

  /** A stored row that owns a slug: the user it belongs to and the slug. */
  datatype SlugRow = SlugRow(user: nat, slug: string)

  /** The slugs of `user`'s rows: the scope of the per-user uniqueness check. */
  function SlugsOf(rows: seq<SlugRow>, user: nat): (r: set<string>)
    ensures forall i :: 0 <= i < |rows| && rows[i].user == user ==> rows[i].slug in r
    ensures forall s :: s in r ==> exists i :: 0 <= i < |rows| && rows[i].user == user && rows[i].slug == s
  {
    set i | 0 <= i < |rows| && rows[i].user == user :: rows[i].slug
  }

  /** The slug stored by `save`: an existing slug is kept; an empty one is replaced by the first
      free candidate built from the slugified title. */
  method SaveSlug(slug: string, title: string, slugify: string -> string, taken: set<string>) returns (r: string)
    ensures slug != "" ==> r == slug
    ensures slug == "" ==> r !in taken
    ensures slug == "" ==> FirstFree(slugify(title), taken, r)
  {
    if slug != "" {
      r := slug;
    } else {
      var k;
      r, k := FreeSlug(slugify(title), taken);
    }
  }
}
