/** Text helpers shared by the Python back end and the TypeScript front end.
    Strings are `seq<char>`; case mapping is ASCII only. */
module Strings {
  import opened Base

  /** ASCII lower-casing of one character. */
  function LowerChar(c: char): char {
    if 'A' <= c <= 'Z' then (c as int + 32) as char else c
  }

  /** `str.lower()` / `toLowerCase()` restricted to ASCII letters. */
  function Lower(s: string): string {
    seq(|s|, i requires 0 <= i < |s| => LowerChar(s[i]))
  }

  predicate IsAsciiLetter(c: char) {
    'a' <= c <= 'z' || 'A' <= c <= 'Z'
  }

  /** ASCII upper-casing of one character. */
  function UpperChar(c: char): char {
    if 'a' <= c <= 'z' then (c as int - 32) as char else c
  }

  /** Python's `str.title()` on ASCII text: a letter is upper-cased when it starts a run of
      letters and lower-cased otherwise; other characters are kept. */
  function Title(s: string): (r: string)
    ensures |r| == |s|
    ensures forall i :: 0 <= i < |s| && !IsAsciiLetter(s[i]) ==> r[i] == s[i]
    ensures forall i :: 0 <= i < |s| && IsAsciiLetter(s[i]) ==>
              r[i] == if i == 0 || !IsAsciiLetter(s[i - 1]) then UpperChar(s[i]) else LowerChar(s[i])
  {
    seq(|s|, i requires 0 <= i < |s| =>
      if !IsAsciiLetter(s[i]) then s[i]
      else if i == 0 || !IsAsciiLetter(s[i - 1]) then UpperChar(s[i])
      else LowerChar(s[i]))
  }

  /** `sub` occurs in `s` starting at index `i`. */
  predicate OccursAt(s: string, sub: string, i: nat) {
    i + |sub| <= |s| && s[i..i + |sub|] == sub
  }

  /** Python's `sub in s` and JavaScript's `s.includes(sub)`. */
  predicate Contains(s: string, sub: string) {
    exists i: nat | i <= |s| :: OccursAt(s, sub, i)
  }

  /** `s.startswith(p)` / `s.startsWith(p)`. */
  predicate StartsWith(s: string, p: string) {
    p <= s
  }

  /** A path with one '/' put in front unless it already starts with one. */
  function WithLeadingSlash(p: string): (r: string)
    ensures StartsWith(r, "/")
    ensures StartsWith(p, "/") ==> r == p
    ensures !StartsWith(p, "/") ==> r == "/" + p
  {
    if StartsWith(p, "/") then p else "/" + p
  }

  /** `s.endswith(p)` / `s.endsWith(p)`. */
  predicate EndsWith(s: string, p: string) {
    |p| <= |s| && s[|s| - |p|..] == p
  }

  /** Case-insensitive containment as the source writes it:
      `s.lower()` contains `sub.lower()`. */
  predicate ContainsIgnoreCase(s: string, sub: string) {
    Contains(Lower(s), Lower(sub))
  }

  /** The characters JavaScript's `trim()` and `\s` treat as white space. */
  predicate IsJsSpace(c: char) {
    var n := c as int;
    (9 <= n <= 13) || n == 0x20 || n == 0xA0 || n == 0x1680
    || (0x2000 <= n <= 0x200A) || n == 0x2028 || n == 0x2029 || n == 0x202F
    || n == 0x205F || n == 0x3000 || n == 0xFEFF
  }

  /** The characters Python's `str.strip()`, `str.split()` and `str.isspace()` treat as white space. */
  predicate IsPySpace(c: char) {
    var n := c as int;
    (9 <= n <= 13) || (0x1C <= n <= 0x20) || n == 0x85 || n == 0xA0 || n == 0x1680
    || (0x2000 <= n <= 0x200A) || n == 0x2028 || n == 0x2029 || n == 0x202F
    || n == 0x205F || n == 0x3000
  }

  /** The end of the white-space run of `s` that starts at `k`. */
  function SpaceRunFrom(s: string, ws: char -> bool, k: nat): (j: nat)
    requires k <= |s|
    requires forall i :: 0 <= i < k ==> ws(s[i])
    ensures k <= j <= |s|
    ensures forall i :: 0 <= i < j ==> ws(s[i])
    ensures j == |s| || !ws(s[j])
    decreases |s| - k
  {
    if k < |s| && ws(s[k]) then SpaceRunFrom(s, ws, k + 1) else k
  }

  /** The start of the white-space run of `s` that ends at `k`. */
  function SpaceRunBefore(s: string, ws: char -> bool, k: nat): (j: nat)
    requires k <= |s|
    requires forall i :: k <= i < |s| ==> ws(s[i])
    ensures j <= k
    ensures forall i :: j <= i < |s| ==> ws(s[i])
    ensures j == 0 || !ws(s[j - 1])
    decreases k
  {
    if k > 0 && ws(s[k - 1]) then SpaceRunBefore(s, ws, k - 1) else k
  }

  /** Drops leading characters satisfying `ws`. */
  function TrimStart(s: string, ws: char -> bool): string {
    s[SpaceRunFrom(s, ws, 0)..]
  }

  /** Drops trailing characters satisfying `ws`. */
  function TrimEnd(s: string, ws: char -> bool): string {
    s[..SpaceRunBefore(s, ws, |s|)]
  }

  /** Drops white space at both ends. */
  function Trim(s: string, ws: char -> bool): string {
    TrimEnd(TrimStart(s, ws), ws)
  }

  /** JavaScript's `s.trim()`. */
  function JsTrim(s: string): string { Trim(s, IsJsSpace) }

  /** Python's `s.strip()`. */
  function PyStrip(s: string): string { Trim(s, IsPySpace) }

  /** Every character is white space (the string may be empty). */
  predicate AllSpace(s: string, ws: char -> bool) {
    forall i :: 0 <= i < |s| ==> ws(s[i])
  }

  /** Trimming yields the empty string exactly when the input is all white space. */
  lemma TrimEmptyIff(s: string, ws: char -> bool)
    ensures Trim(s, ws) == "" <==> AllSpace(s, ws)
  {
    var a := SpaceRunFrom(s, ws, 0);
    var t := s[a..];
    var b := SpaceRunBefore(t, ws, |t|);
    if a < |s| {
      assert !ws(s[a]);
      assert t[0] == s[a];
      assert b > 0;
    }
  }

  /** A trimmed string neither starts nor ends with white space, and is a slice of the input. */
  lemma TrimShape(s: string, ws: char -> bool)
    ensures var r := Trim(s, ws); |r| == 0 || (!ws(r[0]) && !ws(r[|r| - 1]))
    ensures exists a, b :: 0 <= a <= b <= |s| && Trim(s, ws) == s[a..b]
  {
    var a := SpaceRunFrom(s, ws, 0);
    var t := s[a..];
    var b := SpaceRunBefore(t, ws, |t|);
    assert Trim(s, ws) == s[a..a + b];
    if b > 0 {
      assert t[0] == s[a];
      assert a < |s|;
      if b < |t| {
        assert !ws(s[a]);
      }
      assert !ws(t[0]) by {
        assert SpaceRunFrom(s, ws, 0) == a;
      }
    }
  }

  /** A string without white space at its ends is its own trim. */
  lemma TrimNoEdges(s: string, ws: char -> bool)
    requires |s| == 0 || (!ws(s[0]) && !ws(s[|s| - 1]))
    ensures Trim(s, ws) == s
  {
    if |s| > 0 {
      assert SpaceRunFrom(s, ws, 0) == 0;
      assert s[0..] == s;
      assert SpaceRunBefore(s, ws, |s|) == |s|;
    }
  }

  /** A string that is its own trim has no white space at its ends. */
  lemma TrimmedEdges(s: string, ws: char -> bool)
    requires Trim(s, ws) == s
    ensures |s| == 0 || (!ws(s[0]) && !ws(s[|s| - 1]))
  {
    TrimShape(s, ws);
  }

  /** Trimming twice is trimming once. */
  lemma TrimIdempotent(s: string, ws: char -> bool)
    ensures Trim(Trim(s, ws), ws) == Trim(s, ws)
  {
    TrimShape(s, ws);
    TrimNoEdges(Trim(s, ws), ws);
  }

  /** The white-space run starting at `k` ends exactly at the first non-space position. */
  lemma {:induction false} SpaceRunFromIs(s: string, ws: char -> bool, k: nat, m: nat)
    requires k <= m <= |s|
    requires forall i :: 0 <= i < m ==> ws(s[i])
    requires m == |s| || !ws(s[m])
    ensures SpaceRunFrom(s, ws, k) == m
    decreases m - k
  {
    if k < m {
      SpaceRunFromIs(s, ws, k + 1, m);
    }
  }

  /** The white-space run ending at `k` starts exactly after the last non-space position. */
  lemma {:induction false} SpaceRunBeforeIs(s: string, ws: char -> bool, k: nat, m: nat)
    requires m <= k <= |s|
    requires forall i :: m <= i < |s| ==> ws(s[i])
    requires m == 0 || !ws(s[m - 1])
    ensures SpaceRunBefore(s, ws, k) == m
    decreases k - m
  {
    if m < k {
      SpaceRunBeforeIs(s, ws, k - 1, m);
    }
  }

  /** Trimming removes exactly the white space padded around a word-like core. */
  lemma TrimPadded(a: string, b: string, c: string, ws: char -> bool)
    requires AllSpace(a, ws) && AllSpace(c, ws)
    requires |b| > 0 && !ws(b[0]) && !ws(b[|b| - 1])
    ensures Trim(a + b + c, ws) == b
  {
    var s := a + b + c;
    assert s[|a|] == b[0];
    SpaceRunFromIs(s, ws, 0, |a|);
    var t := s[|a|..];
    assert t == b + c;
    assert t[|b| - 1] == b[|b| - 1];
    SpaceRunBeforeIs(t, ws, |t|, |b|);
    assert t[..|b|] == b;
  }

  /** `sep.join(parts)` / `parts.join(sep)`. */
  function Join(parts: seq<string>, sep: string): string {
    if |parts| == 0 then ""
    else if |parts| == 1 then parts[0]
    else parts[0] + sep + Join(parts[1..], sep)
  }

  /** A three-part concatenation starts with its first part, ends with its last, and holds
      its middle part right after the first. */
  lemma Frame(a: string, b: string, c: string)
    ensures StartsWith(a + b + c, a) && EndsWith(a + b + c, c)
    ensures OccursAt(a + b + c, b, |a|) && Contains(a + b + c, b)
  {
    var r := a + b + c;
    assert r[..|a|] == a;
    assert r[|r| - |c|..] == c;
    assert r[|a|..|a| + |b|] == b;
    assert OccursAt(r, b, |a|);
  }

  /** Containment is transitive. */
  lemma ContainsWithin(s: string, t: string, u: string)
    requires Contains(s, t) && Contains(t, u)
    ensures Contains(s, u)
  {
    var i: nat :| i <= |s| && OccursAt(s, t, i);
    var j: nat :| j <= |t| && OccursAt(t, u, j);
    assert s[i..i + |t|] == t;
    forall k | 0 <= k < |u|
      ensures s[i + j + k] == u[k]
    {
      assert u[k] == t[j + k] == s[i..i + |t|][j + k];
    }
    assert s[i + j..i + j + |u|] == u;
    assert OccursAt(s, u, i + j);
  }

  /** The parts written one after another (`''.join(parts)`, or `+=` in a loop). */
  function Concat(parts: seq<string>): string {
    if |parts| == 0 then "" else Concat(parts[..|parts| - 1]) + parts[|parts| - 1]
  }

  /** Concatenation distributes over appending part lists. */
  lemma {:induction false} ConcatAppend(a: seq<string>, b: seq<string>)
    ensures Concat(a + b) == Concat(a) + Concat(b)
    decreases |b|
  {
    if |b| > 0 {
      assert (a + b)[..|a + b| - 1] == a + b[..|b| - 1];
      ConcatAppend(a, b[..|b| - 1]);
    } else {
      assert a + b == a;
    }
  }

  /** Part `k` is written right after the parts before it. */
  lemma ConcatAt(parts: seq<string>, k: nat)
    requires k < |parts|
    ensures OccursAt(Concat(parts), parts[k], |Concat(parts[..k])|)
  {
    assert parts == parts[..k] + [parts[k]] + parts[k + 1..];
    ConcatAppend(parts[..k] + [parts[k]], parts[k + 1..]);
    ConcatAppend(parts[..k], [parts[k]]);
    assert [parts[k]][..0] == [];
    Frame(Concat(parts[..k]), parts[k], Concat(parts[k + 1..]));
  }

  /** `s.split(sep)` for a one-character separator, in both Python and JavaScript:
      every piece is kept, including empty ones, and "" splits to [""]. */
  function Split(s: string, sep: char): (r: seq<string>)
    ensures |r| >= 1
    ensures forall k :: 0 <= k < |r| ==> sep !in r[k]
  {
    if |s| == 0 then [""]
    else
      var rest := Split(s[1..], sep);
      if s[0] == sep then [""] + rest
      else [[s[0]] + rest[0]] + rest[1..]
  }

  /** Joining the pieces of a split with the separator gives back the string. */
  lemma {:induction false} JoinSplit(s: string, sep: char)
    ensures Join(Split(s, sep), [sep]) == s
  {
    if |s| > 0 {
      var rest := Split(s[1..], sep);
      JoinSplit(s[1..], sep);
      if s[0] == sep {
        assert Split(s, sep) == [""] + rest;
        assert ([""] + rest)[1..] == rest;
      } else {
        var r := Split(s, sep);
        assert r == [[s[0]] + rest[0]] + rest[1..];
        if |rest| == 1 {
          assert s == [s[0]] + s[1..];
        } else {
          assert r[1..] == rest[1..];
          assert Join(rest, [sep]) == rest[0] + [sep] + Join(rest[1..], [sep]);
          assert s == [s[0]] + s[1..];
        }
      }
    }
  }

  /** Splitting a separator-free prefix glued to the rest. */
  lemma {:induction false} SplitPrefix(x: string, y: string, sep: char)
    requires sep !in x
    ensures Split(x + y, sep) == [x + Split(y, sep)[0]] + Split(y, sep)[1..]
  {
    var sy := Split(y, sep);
    if |x| > 0 {
      assert (x + y)[1..] == x[1..] + y;
      assert (x + y)[0] == x[0];
      assert x[0] in x;
      SplitPrefix(x[1..], y, sep);
      var rest := Split(x[1..] + y, sep);
      assert rest == [x[1..] + sy[0]] + sy[1..];
      assert rest[0] == x[1..] + sy[0];
      assert rest[1..] == sy[1..];
      assert [x[0]] + (x[1..] + sy[0]) == x + sy[0];
    } else {
      assert x + y == y;
      assert x + sy[0] == sy[0];
      assert sy == [sy[0]] + sy[1..];
    }
  }

  /** Splitting at the first separator: the separator-free part before it, then the pieces
      of the rest. */
  lemma SplitAtSeparator(x: string, y: string, sep: char)
    requires sep !in x
    ensures Split(x + [sep] + y, sep) == [x] + Split(y, sep)
  {
    SplitPrefix(x, [sep] + y, sep);
    assert x + [sep] + y == x + ([sep] + y);
    assert ([sep] + y)[1..] == y;
    var sy := Split([sep] + y, sep);
    assert sy == [""] + Split(y, sep);
    assert x + sy[0] == x;
  }

  /** Splitting a join of separator-free pieces gives back the pieces. */
  lemma {:induction false} SplitJoin(parts: seq<string>, sep: char)
    requires |parts| >= 1
    requires forall k :: 0 <= k < |parts| ==> sep !in parts[k]
    ensures Split(Join(parts, [sep]), sep) == parts
  {
    if |parts| == 1 {
      SplitPrefix(parts[0], "", sep);
      assert parts[0] + "" == parts[0];
      assert Split("", sep) == [""];
    } else {
      var tail := Join(parts[1..], [sep]);
      SplitJoin(parts[1..], sep);
      assert Join(parts, [sep]) == parts[0] + ([sep] + tail);
      SplitPrefix(parts[0], [sep] + tail, sep);
      assert ([sep] + tail)[1..] == tail;
      assert ([sep] + tail)[0] == sep;
      var st := Split([sep] + tail, sep);
      assert st == [""] + parts[1..];
      assert st[0] == "";
      assert st[1..] == parts[1..];
      assert parts[0] + "" == parts[0];
      assert parts == [parts[0]] + parts[1..];
    }
  }

  /** The first index at or after `k` where `sub` occurs (`s.find(sub, k)`). */
  function FindFrom(s: string, sub: string, k: nat): (r: Option<nat>)
    requires k <= |s|
    ensures r.Some? ==> k <= r.value && OccursAt(s, sub, r.value)
                        && forall j :: k <= j < r.value ==> !OccursAt(s, sub, j)
    ensures r.None? ==> forall j :: k <= j <= |s| ==> !OccursAt(s, sub, j)
    decreases |s| - k
  {
    if OccursAt(s, sub, k) then Some(k)
    else if k == |s| then None
    else FindFrom(s, sub, k + 1)
  }

  /** Python's `s.split(sep)` for a non-empty separator string: the pieces between the
      leftmost non-overlapping occurrences, empty pieces included. */
  function SplitOn(s: string, sep: string): (r: seq<string>)
    requires |sep| > 0
    ensures |r| >= 1
    ensures Join(r, sep) == s
    ensures forall k :: 0 <= k < |r| ==> !Contains(r[k], sep)
    decreases |s|
  {
    match FindFrom(s, sep, 0)
    case None => [s]
    case Some(i) =>
      var head := s[..i];
      var rest := SplitOn(s[i + |sep|..], sep);
      NoEarlierOccurrence(s, sep, i);
      assert ([head] + rest)[1..] == rest;
      assert s == head + sep + s[i + |sep|..];
      [head] + rest
  }

  /** A prefix that ends before the first occurrence cannot contain the separator. */
  lemma NoEarlierOccurrence(s: string, sep: string, i: nat)
    requires i <= |s|
    requires forall j :: 0 <= j < i ==> !OccursAt(s, sep, j)
    requires |sep| > 0
    ensures !Contains(s[..i], sep)
  {
    if Contains(s[..i], sep) {
      var j: nat :| j <= i && OccursAt(s[..i], sep, j);
      assert s[..i][j..j + |sep|] == s[j..j + |sep|];
      assert OccursAt(s, sep, j);
    }
  }

  /** Every part of a join occurs in it. */
  lemma {:induction false} JoinContains(parts: seq<string>, sep: string, k: nat)
    requires k < |parts|
    ensures Contains(Join(parts, sep), parts[k])
  {
    var j := Join(parts, sep);
    if |parts| == 1 {
      assert OccursAt(j, parts[0], 0);
    } else if k == 0 {
      assert j[..|parts[0]|] == parts[0];
      assert OccursAt(j, parts[0], 0);
    } else {
      JoinContains(parts[1..], sep, k - 1);
      var tail := Join(parts[1..], sep);
      var i: nat :| i <= |tail| && OccursAt(tail, parts[k], i);
      var off := |parts[0]| + |sep|;
      assert j == parts[0] + sep + tail;
      assert j[off + i..off + i + |parts[k]|] == tail[i..i + |parts[k]|];
      assert OccursAt(j, parts[k], off + i);
    }
  }

  /** No character of `w` is white space. */
  predicate NoPySpace(w: string) {
    forall i :: 0 <= i < |w| ==> !IsPySpace(w[i])
  }

  /** The longest prefix of `s` without white space. */
  function Word(s: string): (r: string)
    ensures r <= s
    ensures NoPySpace(r)
    ensures |r| < |s| ==> IsPySpace(s[|r|])
  {
    if |s| == 0 || IsPySpace(s[0]) then "" else [s[0]] + Word(s[1..])
  }

  /** Python's `s.split()` with no argument: the maximal runs of non-space characters. */
  function SplitWords(s: string): (r: seq<string>)
    ensures forall k :: 0 <= k < |r| ==> |r[k]| > 0 && NoPySpace(r[k])
    decreases |s|
  {
    var t := TrimStart(s, IsPySpace);
    if |t| == 0 then []
    else
      var w := Word(t);
      assert |w| > 0;
      [w] + SplitWords(t[|w|..])
  }

  /** Removes every character in `bad` (a `replace(c, '')` per character, or a regex class with `g`). */
  function RemoveChars(s: string, bad: set<char>): (r: string)
    ensures |r| <= |s|
    ensures forall i :: 0 <= i < |r| ==> r[i] !in bad && r[i] in s
  {
    if |s| == 0 then ""
    else (if s[0] in bad then "" else [s[0]]) + RemoveChars(s[1..], bad)
  }

  lemma {:induction false} RemoveCharsAppend(a: string, b: string, bad: set<char>)
    ensures RemoveChars(a + b, bad) == RemoveChars(a, bad) + RemoveChars(b, bad)
  {
    if |a| > 0 {
      assert (a + b)[1..] == a[1..] + b;
      RemoveCharsAppend(a[1..], b, bad);
    } else {
      assert a + b == b;
    }
  }

  /** Removing two sets of characters one after the other removes their union. */
  lemma {:induction false} RemoveCharsTwice(s: string, a: set<char>, b: set<char>)
    ensures RemoveChars(RemoveChars(s, a), b) == RemoveChars(s, a + b)
  {
    if |s| > 0 {
      RemoveCharsTwice(s[1..], a, b);
      var h := if s[0] in a then "" else [s[0]];
      RemoveCharsAppend(h, RemoveChars(s[1..], a), b);
      if s[0] !in a {
        assert RemoveChars(h, b) == (if s[0] in b then "" else [s[0]]) + RemoveChars(h[1..], b);
        assert h[1..] == "";
      }
    }
  }

  /** A string with none of the characters is left as it is. */
  lemma {:induction false} RemoveCharsNone(s: string, bad: set<char>)
    requires forall i :: 0 <= i < |s| ==> s[i] !in bad
    ensures RemoveChars(s, bad) == s
  {
    if |s| > 0 {
      RemoveCharsNone(s[1..], bad);
      assert s == [s[0]] + s[1..];
    }
  }

  /** Python's `s.replace(pat, rep)` and JavaScript's `s.replaceAll(pat, rep)`:
      non-overlapping occurrences, scanned left to right. */
  function ReplaceAll(s: string, pat: string, rep: string): string
    requires |pat| > 0
    decreases |s|
  {
    if |s| < |pat| then s
    else if pat <= s then rep + ReplaceAll(s[|pat|..], pat, rep)
    else [s[0]] + ReplaceAll(s[1..], pat, rep)
  }

  /** Replacing a one-character pattern by nothing removes that character. */
  lemma {:induction false} ReplaceCharIsRemove(s: string, c: char)
    ensures ReplaceAll(s, [c], "") == RemoveChars(s, {c})
  {
    if |s| > 0 {
      ReplaceCharIsRemove(s[1..], c);
    }
  }

  /** Deleting "**" before deleting '*' is the same as deleting every '*'. */
  lemma {:induction false} DoubleStarThenStar(s: string)
    ensures RemoveChars(ReplaceAll(s, "**", ""), {'*'}) == RemoveChars(s, {'*'})
    decreases |s|
  {
    if |s| >= 2 && "**" <= s {
      DoubleStarThenStar(s[2..]);
      assert s == "**" + s[2..];
      RemoveCharsAppend("**", s[2..], {'*'});
      assert ReplaceAll(s, "**", "") == "" + ReplaceAll(s[2..], "**", "");
      assert "" + ReplaceAll(s[2..], "**", "") == ReplaceAll(s[2..], "**", "");
    } else if |s| >= 2 {
      DoubleStarThenStar(s[1..]);
      assert ReplaceAll(s, "**", "") == [s[0]] + ReplaceAll(s[1..], "**", "");
      RemoveCharsAppend([s[0]], ReplaceAll(s[1..], "**", ""), {'*'});
      RemoveCharsAppend([s[0]], s[1..], {'*'});
      assert s == [s[0]] + s[1..];
    }
  }

  /** The decimal digit for `d`. */
  function DigitChar(d: nat): char
    requires d < 10
  {
    ('0' as int + d) as char
  }

  predicate IsDigit(c: char) { '0' <= c <= '9' }

  /** Python's `str(n)` / JavaScript's template rendering of a non-negative integer. */
  function NatToString(n: nat): (r: string)
    ensures |r| >= 1
    ensures forall i :: 0 <= i < |r| ==> IsDigit(r[i])
    decreases n
  {
    if n < 10 then [DigitChar(n)] else NatToString(n / 10) + [DigitChar(n % 10)]
  }

  /** Reads a decimal numeral back. */
  function ParseDigits(s: string): nat
    requires forall i :: 0 <= i < |s| ==> IsDigit(s[i])
  {
    if |s| == 0 then 0 else ParseDigits(s[..|s| - 1]) * 10 + DigitValue(s[|s| - 1])
  }

  function DigitValue(c: char): nat
    requires IsDigit(c)
  {
    c as int - '0' as int
  }

  /** The decimal rendering reads back as the same number. */
  lemma {:induction false} NatToStringRoundTrip(n: nat)
    ensures ParseDigits(NatToString(n)) == n
    decreases n
  {
    var r := NatToString(n);
    if n >= 10 {
      NatToStringRoundTrip(n / 10);
      assert r[..|r| - 1] == NatToString(n / 10);
    }
  }

  /** Distinct numbers render differently. */
  lemma NatToStringInjective(m: nat, n: nat)
    requires NatToString(m) == NatToString(n)
    ensures m == n
  {
    NatToStringRoundTrip(m);
    NatToStringRoundTrip(n);
  }
}
