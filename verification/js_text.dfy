/** JavaScript text idioms shared by the front end: `String(v)`, `split(',').map(trim)`, the
    comma-separated tag fields and their round trip. */
module JsText {
  import opened Strings
  import opened Seqs
  import opened Json

  /** `String(v)` / a template literal's rendering: a string is itself; anything else goes
      through `show`, JavaScript's conversion of non-strings. */
  function JsString(v: Value, show: Value -> string): string {
    if v.Str? then v.s else show(v)
  }

  /** An element as `Array.prototype.join` writes it: null and undefined as "". */
  function ElementText(v: Value, show: Value -> string): string {
    if v.Undefined? || v.Null? then "" else JsString(v, show)
  }

  /** `items.join(sep)`. */
  function ArrayJoin(items: seq<Value>, sep: string, show: Value -> string): string {
    Join(seq(|items|, i requires 0 <= i < |items| => ElementText(items[i], show)), sep)
  }

  /** `v?.[i]`: an element of an array, a character of a string, a numbered key of an object,
      and `undefined` for anything else. */
  function Index(v: Value, i: nat): Value {
    match v
    case Arr(items) => if i < |items| then items[i] else Undefined
    case Str(s) => if i < |s| then Str([s[i]]) else Undefined
    case Obj(_) => Get(v, NatToString(i))
    case _ => Undefined
  }

  /** `xs[0] || xs[1] || … || xs[n-1]`: the first truthy value, else the last one. */
  function OrChain(xs: seq<Value>): (r: Value)
    requires |xs| >= 1
    ensures r in xs
    ensures JsTruthy(r) <==> exists i :: 0 <= i < |xs| && JsTruthy(xs[i])
    ensures forall i :: 0 <= i < |xs| && JsTruthy(xs[i]) && NoneTruthyBefore(xs, i) ==> r == xs[i]
    ensures NoneTruthyBefore(xs, |xs|) ==> r == xs[|xs| - 1]
  {
    if |xs| == 1 then xs[0]
    else
      var rest := OrChain(xs[1..]);
      assert forall i :: 1 <= i <= |xs| && NoneTruthyBefore(xs, i) ==> NoneTruthyBefore(xs[1..], i - 1);
      JsOr(xs[0], rest)
  }

  /** No value before position `i` is truthy. */
  predicate NoneTruthyBefore(xs: seq<Value>, i: nat)
    requires i <= |xs|
  {
    forall j :: 0 <= j < i ==> !JsTruthy(xs[j])
  }

  /** `parts.map(p => p.trim())`. */
  function TrimEach(parts: seq<string>): (r: seq<string>)
    ensures |r| == |parts|
    ensures forall i :: 0 <= i < |parts| ==> r[i] == JsTrim(parts[i])
  {
    seq(|parts|, i requires 0 <= i < |parts| => JsTrim(parts[i]))
  }

  /** `.filter(p => p.length > 0)`. */
  function NonEmpty(parts: seq<string>): (r: seq<string>)
    ensures forall i :: 0 <= i < |r| ==> r[i] != "" && r[i] in parts
    ensures forall i :: 0 <= i < |parts| && parts[i] != "" ==> parts[i] in r
  {
    Filter(parts, IsNonEmpty)
  }

  predicate IsNonEmpty(p: string) {
    p != ""
  }

  /** A list without empty strings is kept whole. */
  lemma NonEmptyKeepsAll(parts: seq<string>)
    requires forall i :: 0 <= i < |parts| ==> parts[i] != ""
    ensures NonEmpty(parts) == parts
  {
    FilterAll(parts, IsNonEmpty);
  }

  /** `s.split(',').map(t => t.trim())`: every piece is kept, including empty ones. */
  function SplitTrim(s: string): (r: seq<string>)
    ensures |r| >= 1
    ensures forall i :: 0 <= i < |r| ==> ',' !in r[i]
  {
    var pieces := Split(s, ',');
    var r := TrimEach(pieces);
    forall i | 0 <= i < |r|
      ensures ',' !in r[i]
    {
      TrimShape(pieces[i], IsJsSpace);
      var a, b :| 0 <= a <= b <= |pieces[i]| && r[i] == pieces[i][a..b];
      assert forall k :: 0 <= k < |r[i]| ==> r[i][k] == pieces[i][a + k];
    }
    r
  }

  /** A tag name the join/split round trip preserves: no comma and no white space at its ends. */
  predicate PlainName(x: string) {
    ',' !in x && JsTrim(x) == x
  }

  /** The raw pieces of a ", "-joined list: the first name as is, every later one after a space. */
  function Padded(xs: seq<string>): (r: seq<string>)
    requires |xs| >= 1
    ensures |r| == |xs| && r[0] == xs[0]
    ensures forall i :: 1 <= i < |xs| ==> r[i] == " " + xs[i]
  {
    [xs[0]] + seq(|xs| - 1, i requires 0 <= i < |xs| - 1 => " " + xs[i + 1])
  }

  lemma {:induction false} SplitJoinedList(xs: seq<string>)
    requires |xs| >= 1
    requires forall i :: 0 <= i < |xs| ==> ',' !in xs[i]
    ensures Split(Join(xs, ", "), ',') == Padded(xs)
  {
    if |xs| == 1 {
      SplitPrefix(xs[0], "", ',');
      assert xs[0] + "" == xs[0];
    } else {
      var t := Join(xs[1..], ", ");
      SplitJoinedList(xs[1..]);
      var st := Split(t, ',');
      assert Join(xs, ", ") == xs[0] + ("," + (" " + t));
      SplitPrefix(xs[0], "," + (" " + t), ',');
      assert ("," + (" " + t))[1..] == " " + t;
      var s1 := Split("," + (" " + t), ',');
      assert s1 == [""] + Split(" " + t, ',');
      SplitPrefix(" ", t, ',');
      assert Split(" " + t, ',') == [" " + st[0]] + st[1..];
      assert xs[0] + "" == xs[0];
    }
  }

  /** A plain name keeps its trim behind a leading space. */
  lemma TrimSpaced(x: string)
    requires JsTrim(x) == x
    ensures JsTrim(" " + x) == x
  {
    assert AllSpace(" ", IsJsSpace);
    if x == "" {
      TrimEmptyIff(" ", IsJsSpace);
      assert " " + x == " ";
    } else {
      TrimShape(x, IsJsSpace);
      TrimPadded(" ", x, "", IsJsSpace);
      assert " " + x + "" == " " + x;
    }
  }

  /** Trimming the raw pieces of a ", "-joined list of plain names gives the names. */
  lemma TrimPaddedNames(xs: seq<string>)
    requires |xs| >= 1
    requires forall i :: 0 <= i < |xs| ==> PlainName(xs[i])
    ensures TrimEach(Padded(xs)) == xs
  {
    var p := Padded(xs);
    var r := TrimEach(p);
    forall i | 0 <= i < |xs|
      ensures r[i] == xs[i]
    {
      if i > 0 {
        TrimSpaced(xs[i]);
      }
    }
  }

  /** Editing joins tag names with ", " and saving splits on ',' and trims, which gives the names
      back when none contains a comma or edge white space. */
  lemma TagsRoundTrip(xs: seq<string>)
    requires |xs| >= 1
    requires forall i :: 0 <= i < |xs| ==> PlainName(xs[i])
    ensures SplitTrim(Join(xs, ", ")) == xs
  {
    SplitJoinedList(xs);
    TrimPaddedNames(xs);
  }

  /** The list pages' search box: an item is listed when its title or its second text (a post's
      excerpt, a project's description) contains the query, ignoring case. */
  predicate TitleOrTextMatches<T>(x: T, title: T -> string, text: T -> string, query: string) {
    ContainsIgnoreCase(title(x), query) || ContainsIgnoreCase(text(x), query)
  }

  function TitleOrTextMatching<T>(title: T -> string, text: T -> string, query: string): T -> bool {
    x => TitleOrTextMatches(x, title, text, query)
  }

  /** `items.filter(p => p.title.toLowerCase().includes(q) || p.text.toLowerCase().includes(q))`:
      exactly the matching items, in list order. */
  function TitleSearch<T(!new)>(items: seq<T>, title: T -> string, text: T -> string, query: string): (r: seq<T>)
    ensures forall x :: x in r <==> x in items && TitleOrTextMatches(x, title, text, query)
  {
    var r := Filter(items, TitleOrTextMatching(title, text, query));
    assert forall x :: x in items && TitleOrTextMatches(x, title, text, query) ==> x in r by {
      forall x | x in items && TitleOrTextMatches(x, title, text, query) ensures x in r {
        var i :| 0 <= i < |items| && items[i] == x;
      }
    }
    r
  }
}
