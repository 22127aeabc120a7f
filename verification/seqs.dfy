/** Sequence helpers: Python/JavaScript slicing, filtering, de-duplication and the
    stable sort that `Array.prototype.sort` performs. */
module Seqs {
  import opened Base

  /** `s[:n]` / `s.slice(0, n)` for a non-negative `n`. */
  function Take<T>(s: seq<T>, n: nat): (r: seq<T>)
    ensures |r| == Min(n, |s|)
    ensures r <= s
  {
    if |s| <= n then s else s[..n]
  }

  /** `s.filter(p)` / `[x for x in s if p(x)]`: the elements satisfying `p`, in order. */
  function Filter<T>(s: seq<T>, p: T -> bool): (r: seq<T>)
    ensures |r| <= |s|
    ensures forall i :: 0 <= i < |r| ==> p(r[i]) && r[i] in s
    ensures forall i :: 0 <= i < |s| && p(s[i]) ==> s[i] in r
  {
    if |s| == 0 then []
    else
      var rest := Filter(s[..|s| - 1], p);
      assert forall i :: 0 <= i < |s| - 1 ==> s[..|s| - 1][i] == s[i];
      if p(s[|s| - 1]) then rest + [s[|s| - 1]] else rest
  }

  lemma {:induction false} FilterAppend<T>(a: seq<T>, b: seq<T>, p: T -> bool)
    ensures Filter(a + b, p) == Filter(a, p) + Filter(b, p)
    decreases |b|
  {
    if |b| > 0 {
      var b' := b[..|b| - 1];
      assert (a + b)[..|a + b| - 1] == a + b';
      FilterAppend(a, b', p);
    } else {
      assert a + b == a;
    }
  }

  /** Filtering keeps a list whose every element passes. */
  lemma {:induction false} FilterAll<T>(s: seq<T>, p: T -> bool)
    requires forall i :: 0 <= i < |s| ==> p(s[i])
    ensures Filter(s, p) == s
  {
    if |s| > 0 {
      FilterAll(s[..|s| - 1], p);
      assert s[..|s| - 1] + [s[|s| - 1]] == s;
    }
  }

  /** Two tests that agree on every element select the same elements. */
  lemma {:induction false} FilterCongruent<T>(s: seq<T>, p: T -> bool, q: T -> bool)
    requires forall i :: 0 <= i < |s| ==> p(s[i]) == q(s[i])
    ensures Filter(s, p) == Filter(s, q)
  {
    if |s| > 0 {
      FilterCongruent(s[..|s| - 1], p, q);
    }
  }

  /** Filtering twice is filtering once by both tests. */
  lemma {:induction false} FilterFilter<T>(s: seq<T>, p: T -> bool, q: T -> bool, pq: T -> bool)
    requires forall x :: pq(x) == (p(x) && q(x))
    ensures Filter(Filter(s, p), q) == Filter(s, pq)
  {
    if |s| > 0 {
      var init := s[..|s| - 1];
      FilterFilter(init, p, q, pq);
      if p(s[|s| - 1]) {
        FilterAppend(Filter(init, p), [s[|s| - 1]], q);
        assert Filter([s[|s| - 1]], q) == if q(s[|s| - 1]) then [s[|s| - 1]] else [];
      }
    }
  }

  /** An element that passes, followed only by elements that do not, is the last one kept. */
  lemma FilterLast<T>(a: seq<T>, m: T, b: seq<T>, p: T -> bool)
    requires p(m)
    requires forall i :: 0 <= i < |b| ==> !p(b[i])
    ensures |Filter(a + [m] + b, p)| >= 1 && Filter(a + [m] + b, p)[|Filter(a + [m] + b, p)| - 1] == m
  {
    FilterAppend(a + [m], b, p);
    FilterAppend(a, [m], p);
    assert Filter(b, p) == [] by {
      assert forall x :: x in b ==> !p(x);
    }
    assert [m][..0] == [];
  }

  /** `s.map(f)`. */
  function MapSeq<S, T>(s: seq<S>, f: S -> T): (r: seq<T>)
    ensures |r| == |s|
    ensures forall i :: 0 <= i < |s| ==> r[i] == f(s[i])
  {
    seq(|s|, i requires 0 <= i < |s| => f(s[i]))
  }

  lemma MapSeqAppend<S, T>(a: seq<S>, b: seq<S>, f: S -> T)
    ensures MapSeq(a + b, f) == MapSeq(a, f) + MapSeq(b, f)
  {
    assert forall i :: 0 <= i < |a + b| ==> MapSeq(a + b, f)[i] == (MapSeq(a, f) + MapSeq(b, f))[i];
  }

  /** `s.map(f)` with the failures dropped: the `Some` results of `f`, in input order. */
  function KeepSome<S, T>(s: seq<S>, f: S -> Option<T>): (r: seq<T>)
    ensures |r| <= |s|
    ensures forall i :: 0 <= i < |s| && f(s[i]).Some? ==> f(s[i]).value in r
    ensures forall y :: y in r ==> exists i :: 0 <= i < |s| && f(s[i]) == Some(y)
  {
    if |s| == 0 then []
    else
      var rest := KeepSome(s[..|s| - 1], f);
      assert forall i :: 0 <= i < |s| - 1 ==> s[..|s| - 1][i] == s[i];
      match f(s[|s| - 1])
      case Some(y) => rest + [y]
      case None => rest
  }

  /** Keeping the successes commutes with concatenation, so their order is the input's. */
  lemma {:induction false} KeepSomeAppend<S, T>(a: seq<S>, b: seq<S>, f: S -> Option<T>)
    ensures KeepSome(a + b, f) == KeepSome(a, f) + KeepSome(b, f)
    decreases |b|
  {
    if |b| == 0 {
      assert a + b == a;
    } else {
      assert (a + b)[..|a + b| - 1] == a + b[..|b| - 1];
      KeepSomeAppend(a, b[..|b| - 1], f);
    }
  }

  /** When nothing fails, every result is kept, position for position. */
  lemma {:induction false} KeepSomeAll<S, T>(s: seq<S>, f: S -> Option<T>)
    requires forall i :: 0 <= i < |s| ==> f(s[i]).Some?
    ensures |KeepSome(s, f)| == |s|
    ensures forall i :: 0 <= i < |s| ==> KeepSome(s, f)[i] == f(s[i]).value
  {
    if |s| > 0 {
      KeepSomeAll(s[..|s| - 1], f);
    }
  }

  /** `len([x for x in s if p(x)])`. */
  function Count<T>(s: seq<T>, p: T -> bool): nat {
    |Filter(s, p)|
  }

  /** Elements satisfying `p` and elements not satisfying it together account for the whole list. */
  lemma {:induction false} CountPartition<T>(s: seq<T>, p: T -> bool, q: T -> bool)
    requires forall x :: q(x) == !p(x)
    ensures Count(s, p) + Count(s, q) == |s|
  {
    if |s| > 0 {
      CountPartition(s[..|s| - 1], p, q);
    }
  }

  /** Whether some element of `r` has the same key as `x`. */
  predicate HasKey<T, K(==)>(r: seq<T>, key: T -> K, k: K) {
    exists j :: 0 <= j < |r| && key(r[j]) == k
  }

  /** Keeps the first element of each key, in input order (a case-insensitive
      de-duplication when the key lower-cases). */
  function DedupeBy<T, K(==)>(s: seq<T>, key: T -> K): (r: seq<T>)
    ensures |r| <= |s|
    ensures forall i, j :: 0 <= i < j < |r| ==> key(r[i]) != key(r[j])
    ensures forall i :: 0 <= i < |r| ==> r[i] in s
    ensures forall i :: 0 <= i < |s| ==> HasKey(r, key, key(s[i]))
  {
    if |s| == 0 then []
    else
      var init := s[..|s| - 1];
      var d := DedupeBy(init, key);
      var x := s[|s| - 1];
      assert forall i :: 0 <= i < |s| - 1 ==> s[i] == init[i];
      if HasKey(d, key, key(x)) then d
      else
        var r := d + [x];
        assert forall i :: 0 <= i < |s| - 1 ==> HasKey(r, key, key(s[i])) by {
          forall i | 0 <= i < |s| - 1 ensures HasKey(r, key, key(s[i])) {
            assert HasKey(d, key, key(init[i]));
            var j :| 0 <= j < |d| && key(d[j]) == key(init[i]);
            assert r[j] == d[j];
          }
        }
        assert key(r[|r| - 1]) == key(x);
        r
  }

  /** Whether position `i` holds the first element of `s` with its key. */
  predicate IsFirstKey<T, K(==)>(s: seq<T>, key: T -> K, i: nat)
    requires i < |s|
  {
    forall k :: 0 <= k < i ==> key(s[k]) != key(s[i])
  }

  /** Reference definition: keep an element exactly when no earlier element has its key. */
  ghost function FirstsOf<T, K>(s: seq<T>, key: T -> K): seq<T> {
    if |s| == 0 then []
    else FirstsOf(s[..|s| - 1], key) + (if IsFirstKey(s, key, |s| - 1) then [s[|s| - 1]] else [])
  }

  /** A list whose keys are already distinct is its own set of first occurrences. */
  lemma {:induction false} FirstsOfDistinct<T, K>(s: seq<T>, key: T -> K)
    requires forall i, j :: 0 <= i < j < |s| ==> key(s[i]) != key(s[j])
    ensures FirstsOf(s, key) == s
  {
    if |s| > 0 {
      FirstsOfDistinct(s[..|s| - 1], key);
      assert IsFirstKey(s, key, |s| - 1);
    }
  }

  /** De-duplication keeps exactly the first occurrence of every key, in input order. */
  lemma {:induction false} DedupeByFirsts<T, K>(s: seq<T>, key: T -> K)
    ensures DedupeBy(s, key) == FirstsOf(s, key)
  {
    if |s| > 0 {
      var init := s[..|s| - 1];
      DedupeByFirsts(init, key);
      DedupeSeen(s, key);
    }
  }

  /** The last element's key was seen before exactly when it is not a first occurrence. */
  lemma DedupeSeen<T, K>(s: seq<T>, key: T -> K)
    requires |s| > 0
    ensures HasKey(DedupeBy(s[..|s| - 1], key), key, key(s[|s| - 1])) <==> !IsFirstKey(s, key, |s| - 1)
  {
    var init := s[..|s| - 1];
    var d := DedupeBy(init, key);
    var x := s[|s| - 1];
    if HasKey(d, key, key(x)) {
      var j :| 0 <= j < |d| && key(d[j]) == key(x);
      var k :| 0 <= k < |init| && init[k] == d[j];
      assert key(s[k]) == key(x);
    } else {
      forall k | 0 <= k < |init|
        ensures key(s[k]) != key(x)
      {
        assert HasKey(d, key, key(init[k]));
        assert s[k] == init[k];
      }
    }
  }

  /** Exact de-duplication keeping first occurrences. */
  function Dedupe<T(==)>(s: seq<T>): (r: seq<T>)
    ensures |r| <= |s|
    ensures forall i, j :: 0 <= i < j < |r| ==> r[i] != r[j]
    ensures forall i :: 0 <= i < |r| ==> r[i] in s
    ensures forall i :: 0 <= i < |s| ==> s[i] in r
  {
    var r := DedupeBy(s, (x: T) => x);
    assert forall i :: 0 <= i < |s| ==> s[i] in r by {
      forall i | 0 <= i < |s| ensures s[i] in r {
        assert HasKey(r, (y: T) => y, s[i]);
      }
    }
    r
  }

  /** Ascending by `key`. */
  predicate SortedBy<T>(s: seq<T>, key: T -> int) {
    forall i, j :: 0 <= i < j < |s| ==> key(s[i]) <= key(s[j])
  }

  /** The elements whose key is `k`, in order: what a stable sort must preserve. */
  function WithKey<T>(s: seq<T>, key: T -> int, k: int): seq<T> {
    if |s| == 0 then []
    else WithKey(s[..|s| - 1], key, k) + (if key(s[|s| - 1]) == k then [s[|s| - 1]] else [])
  }

  lemma {:induction false} WithKeyAppend<T>(a: seq<T>, b: seq<T>, key: T -> int, k: int)
    ensures WithKey(a + b, key, k) == WithKey(a, key, k) + WithKey(b, key, k)
    decreases |b|
  {
    if |b| > 0 {
      var b' := b[..|b| - 1];
      assert (a + b)[..|a + b| - 1] == a + b';
      WithKeyAppend(a, b', key, k);
    } else {
      assert a + b == a;
    }
  }

  /** Every key in `s` is at most `b`. */
  predicate KeysAtMost<T>(s: seq<T>, key: T -> int, b: int) {
    forall i :: 0 <= i < |s| ==> key(s[i]) <= b
  }

  lemma SortedAppend<T>(s: seq<T>, y: T, key: T -> int)
    requires SortedBy(s, key) && KeysAtMost(s, key, key(y))
    ensures SortedBy(s + [y], key)
  {
  }

  /** Inserts `x` after every element whose key is at most `key(x)`. */
  function InsertBy<T>(x: T, s: seq<T>, key: T -> int): (r: seq<T>)
    ensures multiset(r) == multiset(s) + multiset{x}
  {
    if |s| == 0 then [x]
    else if key(s[|s| - 1]) <= key(x) then s + [x]
    else
      var init := s[..|s| - 1];
      assert s == init + [s[|s| - 1]];
      InsertBy(x, init, key) + [s[|s| - 1]]
  }

  lemma {:induction false} InsertByBound<T>(x: T, s: seq<T>, key: T -> int, b: int)
    requires KeysAtMost(s, key, b) && key(x) <= b
    ensures KeysAtMost(InsertBy(x, s, key), key, b)
  {
    if |s| > 0 && key(s[|s| - 1]) > key(x) {
      InsertByBound(x, s[..|s| - 1], key, b);
    }
  }

  /** Inserting into a sorted list keeps it sorted. */
  lemma {:induction false} InsertBySorted<T>(x: T, s: seq<T>, key: T -> int)
    requires SortedBy(s, key)
    ensures SortedBy(InsertBy(x, s, key), key)
  {
    if |s| == 0 {
    } else if key(s[|s| - 1]) <= key(x) {
      SortedAppend(s, x, key);
    } else {
      var init := s[..|s| - 1];
      var y := s[|s| - 1];
      InsertBySorted(x, init, key);
      InsertByBound(x, init, key, key(y));
      SortedAppend(InsertBy(x, init, key), y, key);
    }
  }

  /** The key class of a one-element list. */
  function Single<T>(x: T, key: T -> int, k: int): seq<T> {
    if key(x) == k then [x] else []
  }

  lemma WithKeySingle<T>(x: T, key: T -> int, k: int)
    ensures WithKey([x], key, k) == Single(x, key, k)
  {
    assert [x][..0] == [];
  }

  /** Inserting `x` appends it to its own key class and leaves the other classes alone. */
  lemma {:induction false} InsertByWithKey<T>(x: T, s: seq<T>, key: T -> int, k: int)
    ensures WithKey(InsertBy(x, s, key), key, k) == WithKey(s, key, k) + Single(x, key, k)
  {
    WithKeySingle(x, key, k);
    if |s| == 0 {
    } else if key(s[|s| - 1]) <= key(x) {
      WithKeyAppend(s, [x], key, k);
    } else {
      var init := s[..|s| - 1];
      var y := s[|s| - 1];
      var ins := InsertBy(x, init, key);
      assert InsertBy(x, s, key) == ins + [y];
      InsertByWithKey(x, init, key, k);
      WithKeyAppend(ins, [y], key, k);
      WithKeySingle(y, key, k);
      assert WithKey(s, key, k) == WithKey(init, key, k) + Single(y, key, k);
      assert Single(x, key, k) + Single(y, key, k) == Single(y, key, k) + Single(x, key, k);
      calc {
        WithKey(ins + [y], key, k);
        WithKey(ins, key, k) + Single(y, key, k);
        WithKey(init, key, k) + Single(x, key, k) + Single(y, key, k);
        WithKey(init, key, k) + (Single(x, key, k) + Single(y, key, k));
        WithKey(init, key, k) + (Single(y, key, k) + Single(x, key, k));
        WithKey(s, key, k) + Single(x, key, k);
      }
    }
  }

  /** `[...s].sort((a, b) => key(a) - key(b))`: an insertion sort, stable like
      `Array.prototype.sort`. */
  function SortBy<T>(s: seq<T>, key: T -> int): (r: seq<T>)
    ensures multiset(r) == multiset(s)
    ensures SortedBy(r, key)
  {
    if |s| == 0 then []
    else
      assert s == s[..|s| - 1] + [s[|s| - 1]];
      var sorted := SortBy(s[..|s| - 1], key);
      InsertBySorted(s[|s| - 1], sorted, key);
      InsertBy(s[|s| - 1], sorted, key)
  }

  /** Stability: within every key class the sorted list keeps the input order. */
  lemma {:induction false} SortByStable<T>(s: seq<T>, key: T -> int, k: int)
    ensures WithKey(SortBy(s, key), key, k) == WithKey(s, key, k)
  {
    if |s| > 0 {
      var init := s[..|s| - 1];
      SortByStable(init, key, k);
      InsertByWithKey(s[|s| - 1], SortBy(init, key), key, k);
    }
  }

  /** The index of the first element satisfying `p` at or after `k`. */
  function FirstIndexFrom<T>(s: seq<T>, p: T -> bool, k: nat): (r: Option<nat>)
    requires k <= |s|
    ensures r.Some? ==> k <= r.value < |s| && p(s[r.value])
                        && forall j :: k <= j < r.value ==> !p(s[j])
    ensures r.None? ==> forall j :: k <= j < |s| ==> !p(s[j])
    decreases |s| - k
  {
    if k == |s| then None
    else if p(s[k]) then Some(k)
    else FirstIndexFrom(s, p, k + 1)
  }

  /** The index of the first element satisfying `p` (`next(i for i, x in enumerate(s) if p(x))`). */
  function FirstIndex<T>(s: seq<T>, p: T -> bool): (r: Option<nat>)
    ensures r.Some? ==> r.value < |s| && p(s[r.value])
                        && forall j :: 0 <= j < r.value ==> !p(s[j])
    ensures r.None? ==> forall j :: 0 <= j < |s| ==> !p(s[j])
  {
    FirstIndexFrom(s, p, 0)
  }

  /** The index of the last element satisfying `p` before `k`. */
  function LastIndexBefore<T>(s: seq<T>, p: T -> bool, k: nat): (r: Option<nat>)
    requires k <= |s|
    ensures r.Some? ==> r.value < k && p(s[r.value])
                        && forall j :: r.value < j < k ==> !p(s[j])
    ensures r.None? ==> forall j :: 0 <= j < k ==> !p(s[j])
  {
    if k == 0 then None
    else if p(s[k - 1]) then Some(k - 1)
    else LastIndexBefore(s, p, k - 1)
  }

  /** The first element satisfying `p`, if any. */
  function FirstWhere<T>(s: seq<T>, p: T -> bool): Option<T> {
    match FirstIndex(s, p)
    case Some(i) => Some(s[i])
    case None => None
  }

  /** `s` without its element at `i` (`s.filter((_, j) => j !== i)`). */
  function RemoveAt<T>(s: seq<T>, i: nat): (r: seq<T>)
    requires i < |s|
    ensures |r| == |s| - 1
    ensures forall j :: 0 <= j < i ==> r[j] == s[j]
    ensures forall j :: i <= j < |r| ==> r[j] == s[j + 1]
  {
    s[..i] + s[i + 1..]
  }

  /** `arrayMove(s, from, to)`: the element at `from` taken out and put back in at `to`, the
      others keeping their relative order. */
  function Move<T>(s: seq<T>, from: nat, to: nat): (r: seq<T>)
    requires from < |s| && to < |s|
    ensures |r| == |s| && r[to] == s[from]
    ensures RemoveAt(r, to) == RemoveAt(s, from)
  {
    var rest := RemoveAt(s, from);
    var r := rest[..to] + [s[from]] + rest[to..];
    assert RemoveAt(r, to) == rest;
    r
  }

  /** Moving permutes: the same elements, as often as before. */
  lemma MovePermutes<T>(s: seq<T>, from: nat, to: nat)
    requires from < |s| && to < |s|
    ensures multiset(Move(s, from, to)) == multiset(s)
  {
    var rest, x := RemoveAt(s, from), s[from];
    assert s == s[..from] + [x] + s[from + 1..];
    assert rest == s[..from] + s[from + 1..];
    assert rest == rest[..to] + rest[to..];
    calc {
      multiset(Move(s, from, to));
      multiset(rest[..to] + [x] + rest[to..]);
      multiset(rest[..to]) + multiset([x]) + multiset(rest[to..]);
      multiset(rest) + multiset([x]);
      multiset(s[..from]) + multiset(s[from + 1..]) + multiset([x]);
      multiset(s);
    }
  }

  /** Moving an element back where it came from restores the sequence. */
  lemma MoveBack<T>(s: seq<T>, from: nat, to: nat)
    requires from < |s| && to < |s|
    ensures Move(Move(s, from, to), to, from) == s
  {
    var m := Move(s, from, to);
    var rest := RemoveAt(s, from);
    assert RemoveAt(m, to) == rest;
    assert rest[..from] == s[..from];
    assert rest[from..] == s[from + 1..];
    assert s == s[..from] + [s[from]] + s[from + 1..];
  }

  /** Moving commutes with mapping. */
  lemma MoveMapSeq<S, T>(s: seq<S>, from: nat, to: nat, f: S -> T)
    requires from < |s| && to < |s|
    ensures MapSeq(Move(s, from, to), f) == Move(MapSeq(s, f), from, to)
  {
    var m := MapSeq(s, f);
    assert MapSeq(RemoveAt(s, from), f) == RemoveAt(m, from);
  }
}
