/** SEO analysis of a portfolio: four rule-based checks that each may add a recommendation and
    deduct points from 100, an optional merge of an AI reply, and the report.

    The text fields are strings, as the view that calls the analysis always supplies them.
    The keyword density values (floating point) are not modelled; the ways computing them
    raises are. */
module SeoAnalyzer {
  import opened Base
  import opened Strings
  import opened Json

  /** The field a rule-based recommendation is about (its `type`). */
  datatype Field = MetaTitle | MetaDescription | MetaKeywords | ContentLength

  datatype Issue = Missing | TooShort | TooLong

  /** A recommendation: one from the rule-based checks, or an element of the AI reply's list. */
  datatype Rec = Basic(field: Field, issue: Issue) | FromAi(v: Value)

  /** Points deducted for a rule-based recommendation. */
  function Penalty(field: Field, issue: Issue): nat {
    match (field, issue)
    case (MetaTitle, Missing) => 20
    case (MetaDescription, Missing) => 15
    case (ContentLength, _) => 10
    case _ => 5
  }

  function PriorityOf(field: Field, issue: Issue): Priority {
    match (field, issue)
    case (MetaTitle, Missing) => High
    case (MetaDescription, Missing) => High
    case (MetaKeywords, _) => Low
    case _ => Medium
  }

  function Message(field: Field, issue: Issue): string {
    match (field, issue)
    case (MetaTitle, Missing) => "Missing SEO title"
    case (MetaTitle, TooShort) => "SEO title is too short (recommended: 30-60 characters)"
    case (MetaTitle, TooLong) => "SEO title is too long (recommended: 30-60 characters)"
    case (MetaDescription, Missing) => "Missing meta description"
    case (MetaDescription, TooShort) => "Meta description is too short (recommended: 120-160 characters)"
    case (MetaDescription, TooLong) => "Meta description is too long (recommended: 120-160 characters)"
    case (MetaKeywords, _) => "Missing meta keywords"
    case (ContentLength, _) => "Content is too short (recommended: at least 300 words)"
  }

  /** The text fields of `portfolio_content`, and the two pass-through entries when present. */
  datatype SeoInput = SeoInput(title: string, description: string, keywords: string, contentText: string,
                               imageAltText: Option<Value>, links: Option<Value>)

  /** The issue a text field has against a recommended length range: empty, shorter than `lo`,
      or longer than `hi`. */
  function RangeIssue(text: string, lo: nat, hi: nat): (r: Option<Issue>)
    ensures r == Some(Missing) <==> |text| == 0
    ensures r == Some(TooShort) <==> 0 < |text| < lo
    ensures r == Some(TooLong) <==> |text| > hi && !(0 < |text| < lo) && |text| != 0
    ensures r == None <==> |text| != 0 && lo <= |text| && |text| <= hi
  {
    if |text| == 0 then Some(Missing)
    else if |text| < lo then Some(TooShort)
    else if |text| > hi then Some(TooLong)
    else None
  }

  /** The issue of each check: title (30 to 60 characters), description (120 to 160), keywords
      (present), content (at least 300 characters). */
  function TitleIssue(input: SeoInput): Option<Issue> { RangeIssue(input.title, 30, 60) }

  function DescriptionIssue(input: SeoInput): Option<Issue> { RangeIssue(input.description, 120, 160) }

  function KeywordsIssue(input: SeoInput): Option<Issue> {
    if |input.keywords| == 0 then Some(Missing) else None
  }

  function ContentIssue(input: SeoInput): Option<Issue> {
    if |input.contentText| < 300 then Some(TooShort) else None
  }

  /** One check: an issue appends its recommendation and deducts its penalty. */
  function Check(acc: (seq<Rec>, int), field: Field, issue: Option<Issue>): (seq<Rec>, int) {
    match issue
    case Some(i) => (acc.0 + [Basic(field, i)], acc.1 - Penalty(field, i))
    case None => acc
  }

  /** The rule-based recommendations and score, accumulated from 100 in the order of the checks. */
  function BasicChecks(input: SeoInput): (r: (seq<Rec>, int))
  {
    var afterTitle := Check(([], 100), MetaTitle, TitleIssue(input));
    var afterDescription := Check(afterTitle, MetaDescription, DescriptionIssue(input));
    var afterKeywords := Check(afterDescription, MetaKeywords, KeywordsIssue(input));
    Check(afterKeywords, ContentLength, ContentIssue(input))
  }

  /** The sum of the penalties of the rule-based recommendations in a list. */
  function Penalties(recs: seq<Rec>): nat {
    if |recs| == 0 then 0
    else
      var last := recs[|recs| - 1];
      Penalties(recs[..|recs| - 1]) + (if last.Basic? then Penalty(last.field, last.issue) else 0)
  }

  lemma PenaltiesSnoc(recs: seq<Rec>, rec: Rec)
    ensures Penalties(recs + [rec]) == Penalties(recs) + (if rec.Basic? then Penalty(rec.field, rec.issue) else 0)
  {
    assert (recs + [rec])[..|recs|] == recs;
  }

  /** A check keeps the score equal to 100 minus the penalties so far, and deducts at most
      `bound` when every issue of its field costs at most that. */
  lemma CheckDeducts(acc: (seq<Rec>, int), field: Field, issue: Option<Issue>, bound: nat)
    requires acc.1 == 100 - Penalties(acc.0)
    requires forall i :: Penalty(field, i) <= bound
    ensures Check(acc, field, issue).1 == 100 - Penalties(Check(acc, field, issue).0)
    ensures acc.1 - bound <= Check(acc, field, issue).1 <= acc.1
  {
    if issue.Some? {
      PenaltiesSnoc(acc.0, Basic(field, issue.value));
    }
  }

  /** The score of the checks is 100 minus the penalties of exactly the recommendations they
      produced, and therefore lies between 50 and 100. */
  lemma BasicScoreIsDeductions(input: SeoInput)
    ensures var (recs, score) := BasicChecks(input);
            score == 100 - Penalties(recs) && 50 <= score <= 100
  {
    var a0: (seq<Rec>, int) := ([], 100);
    var a1 := Check(a0, MetaTitle, TitleIssue(input));
    var a2 := Check(a1, MetaDescription, DescriptionIssue(input));
    var a3 := Check(a2, MetaKeywords, KeywordsIssue(input));
    CheckDeducts(a0, MetaTitle, TitleIssue(input), 20);
    CheckDeducts(a1, MetaDescription, DescriptionIssue(input), 15);
    CheckDeducts(a2, MetaKeywords, KeywordsIssue(input), 5);
    CheckDeducts(a3, ContentLength, ContentIssue(input), 10);
  }

  /** The recommendation list of one check: one item when the check finds an issue. */
  function RecsOf(field: Field, issue: Option<Issue>): (r: seq<Rec>)
    ensures forall i :: Basic(field, i) in r <==> issue == Some(i)
    ensures forall k :: 0 <= k < |r| ==> r[k].Basic? && r[k].field == field
  {
    if issue.Some? then [Basic(field, issue.value)] else []
  }

  /** The recommendation lists of the four checks, in check order. */
  function CheckParts(input: SeoInput): seq<seq<Rec>> {
    [RecsOf(MetaTitle, TitleIssue(input)), RecsOf(MetaDescription, DescriptionIssue(input)),
     RecsOf(MetaKeywords, KeywordsIssue(input)), RecsOf(ContentLength, ContentIssue(input))]
  }

  lemma BasicRecsSplit(input: SeoInput)
    ensures var p := CheckParts(input);
            BasicChecks(input).0 == p[0] + p[1] + p[2] + p[3]
  {
  }

  /** The title and description are flagged exactly when out of range, with the matching issue. */
  lemma TitleAndDescriptionFlags(input: SeoInput)
    ensures var recs := BasicChecks(input).0;
            (Basic(MetaTitle, Missing) in recs <==> |input.title| == 0)
            && (Basic(MetaTitle, TooShort) in recs <==> 0 < |input.title| < 30)
            && (Basic(MetaTitle, TooLong) in recs <==> |input.title| > 60)
            && (Basic(MetaDescription, Missing) in recs <==> |input.description| == 0)
            && (Basic(MetaDescription, TooShort) in recs <==> 0 < |input.description| < 120)
            && (Basic(MetaDescription, TooLong) in recs <==> |input.description| > 160)
  {
    BasicRecsSplit(input);
  }

  /** The keywords and the content are flagged exactly when empty or short. */
  lemma KeywordAndContentFlags(input: SeoInput)
    ensures var recs := BasicChecks(input).0;
            (Basic(MetaKeywords, Missing) in recs <==> |input.keywords| == 0)
            && (Basic(ContentLength, TooShort) in recs <==> |input.contentText| < 300)
  {
    BasicRecsSplit(input);
  }

  /** The checks produce only rule-based items, at most one per field, in check order. */
  lemma BasicRecsOrdered(input: SeoInput)
    ensures var recs := BasicChecks(input).0;
            forall i, j :: 0 <= i < j < |recs| ==> recs[i].Basic? && recs[j].Basic?
                                                   && FieldRank(recs[i].field) < FieldRank(recs[j].field)
  {
    BasicRecsSplit(input);
    var p := CheckParts(input);
    PartsRanked(p[0], p[1], p[2], p[3]);
  }

  /** Four lists of at most one item each, holding the fields of rank 0, 1, 2 and 3, concatenate
      to a list of strictly increasing rank. */
  lemma PartsRanked(a: seq<Rec>, b: seq<Rec>, c: seq<Rec>, d: seq<Rec>)
    requires |a| <= 1 && |b| <= 1 && |c| <= 1 && |d| <= 1
    requires forall k :: 0 <= k < |a| ==> a[k].Basic? && FieldRank(a[k].field) == 0
    requires forall k :: 0 <= k < |b| ==> b[k].Basic? && FieldRank(b[k].field) == 1
    requires forall k :: 0 <= k < |c| ==> c[k].Basic? && FieldRank(c[k].field) == 2
    requires forall k :: 0 <= k < |d| ==> d[k].Basic? && FieldRank(d[k].field) == 3
    ensures var r := a + b + c + d;
            forall i, j :: 0 <= i < j < |r| ==> r[i].Basic? && r[j].Basic? && FieldRank(r[i].field) < FieldRank(r[j].field)
  {
    var r := a + b + c + d;
    var n1, n2, n3 := |a|, |a| + |b|, |a| + |b| + |c|;
    forall k | 0 <= k < |r|
      ensures r[k].Basic?
      ensures FieldRank(r[k].field) == if k < n1 then 0 else if k < n2 then 1 else if k < n3 then 2 else 3
    {
      if k < n3 {
        assert r[k] == (a + b + c)[k];
        if k < n2 {
          assert (a + b + c)[k] == (a + b)[k];
          if k < n1 { assert (a + b)[k] == a[k]; } else { assert (a + b)[k] == b[k - n1]; }
        } else {
          assert (a + b + c)[k] == c[k - n2];
        }
      } else {
        assert r[k] == d[k - n3];
      }
    }
  }

  /** The position of a field's check. */
  function FieldRank(f: Field): nat {
    match f
    case MetaTitle => 0
    case MetaDescription => 1
    case MetaKeywords => 2
    case ContentLength => 3
  }

  /** `max(0, min(100, score))` under Python's rules: `min`/`max` return the first of equal
      arguments, `bool` is a subclass of `int`, and anything else that is not a number raises,
      which is `None` here. */
  function ClampScore(v: Value): (r: Option<Value>)
    ensures r.Some? <==> v.Num? || v.Real? || v.Bool?
    ensures r.Some? ==> InScoreRange(r.value)
    ensures v.Num? && 0 <= v.n <= 100 ==> r == Some(v)
    ensures v.Real? && 0.0 < v.x < 100.0 ==> r == Some(v)
  {
    match v
    case Num(n) => Some(Num(if n >= 100 then 100 else if n > 0 then n else 0))
    case Real(x) => Some(if x >= 100.0 then Num(100) else if x > 0.0 then Real(x) else Num(0))
    case Bool(b) => Some(if b then Bool(true) else Num(0))
    case _ => None
  }

  /** A number between 0 and 100. */
  predicate InScoreRange(v: Value) {
    match v
    case Num(n) => 0 <= n <= 100
    case Real(x) => 0.0 <= x <= 100.0
    case Bool(b) => true
    case _ => false
  }

  /** Clamping twice is clamping once. */
  lemma ClampScoreIdempotent(v: Value)
    requires ClampScore(v).Some?
    ensures ClampScore(ClampScore(v).value) == ClampScore(v)
  {
  }

  datatype MetaTags = MetaTags(title: bool, description: bool, keywords: bool)

  datatype SeoReport = SeoReport(score: Value, recommendations: seq<Rec>, metaTags: MetaTags, contentLength: nat,
                                 readabilityScore: Value, imageAltText: Value, links: Value)

  /** The elements `list.extend` appends: a list's items, a string's characters, or a dict's keys
      in the order `keyOrder` gives (the order the reply wrote them); any other value raises
      (`None`). */
  function Extension(v: Value, keyOrder: map<string, Value> -> seq<string>): (r: Option<seq<Value>>)
    ensures r.Some? <==> v.Arr? || v.Str? || v.Obj?
    ensures v.Arr? ==> r == Some(v.items)
    ensures v.Str? ==> r.Some? && |r.value| == |v.s| && forall i :: 0 <= i < |v.s| ==> r.value[i] == Str([v.s[i]])
    ensures v.Obj? ==> r == Some(Strs(keyOrder(v.fields)))
  {
    match v
    case Arr(items) => Some(items)
    case Str(s) => Some(Strs(Chars(s)))
    case Obj(m) => Some(Strs(keyOrder(m)))
    case _ => None
  }

  function AsAiRecs(items: seq<Value>): (r: seq<Rec>)
    ensures |r| == |items|
    ensures forall i :: 0 <= i < |items| ==> r[i] == FromAi(items[i])
  {
    seq(|items|, i requires 0 <= i < |items| => FromAi(items[i]))
  }

  /** A two-element iterable whose first element can be a dict key: the shape `dict.update` needs
      for each key/value element. A list or dict first element is unhashable; a string's and a
      dict's elements are strings. */
  predicate IsPair(v: Value) {
    match v
    case Arr(items) => |items| == 2 && !items[0].Arr? && !items[0].Obj?
    case Str(s) => |s| == 2
    case Obj(m) => |m| == 2
    case _ => false
  }

  /** Whether `dict.update(v)` accepts `v`: a dict, or an iterable whose every element is a
      key/value pair; a non-empty string's elements are single characters, so it raises. */
  predicate UpdateAccepts(v: Value) {
    match v
    case Obj(_) => true
    case Arr(items) => forall i :: 0 <= i < |items| ==> IsPair(items[i])
    case Str(s) => |s| == 0
    case _ => false
  }

  /** The keyword-density loop divides each keyword's count by the number of words in the
      content: with a non-blank keyword and content that is all white space, it divides by zero. */
  predicate DensityDividesByZero(input: SeoInput) {
    |input.keywords| > 0 && |input.contentText| > 0 && AllSpace(input.contentText, IsPySpace)
    && exists k :: 0 <= k < |Split(input.keywords, ',')| && PyStrip(Split(input.keywords, ',')[k]) != ""
  }

  /** The merge of a dict reply raises: its recommendations cannot be iterated, or its keyword
      density cannot update a dict. */
  predicate MergeRaises(reply: Value, keyOrder: map<string, Value> -> seq<string>) {
    reply.Obj?
    && ((Has(reply, "recommendations") && Extension(reply.fields["recommendations"], keyOrder).None?)
        || (Has(reply, "keyword_density") && !UpdateAccepts(reply.fields["keyword_density"])))
  }

  /** `analyze_seo`. `reply` is what the JSON generator returns when the client is configured;
      `keyOrder` lists a dict's keys in the order the reply wrote them. `None` is an exception:
      a division by zero in the keyword density, a reply whose recommendations or keyword density
      cannot be merged, or a score that is not a number. */
  function AnalyzeSeo(input: SeoInput, configured: bool, reply: Value,
                      keyOrder: map<string, Value> -> seq<string>): (r: Option<SeoReport>)
    ensures DensityDividesByZero(input) ==> r.None?
    ensures configured && MergeRaises(reply, keyOrder) ==> r.None?
    ensures !DensityDividesByZero(input) && (!configured || !reply.Obj?) ==>
              r.Some? && r.value.score == Num(BasicChecks(input).1)
              && r.value.recommendations == BasicChecks(input).0
              && r.value.readabilityScore == Num(70)
    ensures r.None? <==> DensityDividesByZero(input)
                         || (configured && reply.Obj?
                             && (MergeRaises(reply, keyOrder)
                                 || ClampScore(GetOr(reply, "score", Num(BasicChecks(input).1))).None?))
    ensures r.Some? ==> InScoreRange(r.value.score)
    ensures r.Some? ==> BasicChecks(input).0 <= r.value.recommendations
    ensures r.Some? ==> r.value.metaTags == MetaTags(|input.title| > 0, |input.description| > 0, |input.keywords| > 0)
                        && r.value.contentLength == |input.contentText|
    ensures configured && Has(reply, "score") && r.Some? ==> Some(r.value.score) == ClampScore(reply.fields["score"])
  {
    var (recs, score) := BasicChecks(input);
    BasicScoreIsDeductions(input);
    var merged: Option<(seq<Rec>, Value, Value)> :=
      if DensityDividesByZero(input) then None
      else if !configured || !reply.Obj? then Some((recs, Num(score), Num(70)))
      else
        var extra := if Has(reply, "recommendations") then Extension(reply.fields["recommendations"], keyOrder) else Some([]);
        if extra.None? then None
        else if Has(reply, "keyword_density") && !UpdateAccepts(reply.fields["keyword_density"]) then None
        else
          var readability := GetOr(reply, "readability_score", Num(70));
          var s := GetOr(reply, "score", Num(score));
          Some((recs + AsAiRecs(extra.value), s, readability));
    if merged.None? then None
    else
      var (allRecs, s, readability) := merged.value;
      match ClampScore(s)
      case None => None
      case Some(clamped) =>
        Some(SeoReport(clamped, allRecs, MetaTags(|input.title| > 0, |input.description| > 0, |input.keywords| > 0),
                       |input.contentText|, readability, input.imageAltText.GetOr(Obj(map[])),
                       input.links.GetOr(Obj(map["internal" := Num(0), "external" := Num(0)]))))
  }

  /** Without a usable AI reply the score lies between 50 and 100 and is 100 minus the penalties
      of the recommendations in the report. */
  lemma UnconfiguredScore(input: SeoInput, configured: bool, reply: Value, keyOrder: map<string, Value> -> seq<string>)
    requires !configured || !reply.Obj?
    requires !DensityDividesByZero(input)
    ensures var r := AnalyzeSeo(input, configured, reply, keyOrder).value;
            r.score.Num? && r.score.n == 100 - Penalties(r.recommendations) && 50 <= r.score.n <= 100
  {
    BasicScoreIsDeductions(input);
  }

  /** The AI recommendations follow the rule-based ones, in the reply's order. */
  lemma AiRecommendationsAppended(input: SeoInput, reply: Value, keyOrder: map<string, Value> -> seq<string>)
    requires reply.Obj? && "recommendations" in reply.fields && reply.fields["recommendations"].Arr?
    requires AnalyzeSeo(input, true, reply, keyOrder).Some?
    ensures AnalyzeSeo(input, true, reply, keyOrder).value.recommendations
            == BasicChecks(input).0 + AsAiRecs(reply.fields["recommendations"].items)
  {
  }

  /** A dict of recommendations is merged as its keys: each key becomes one recommendation after
      the rule-based ones. */
  lemma DictRecommendationsAreKeys(input: SeoInput, reply: Value, keyOrder: map<string, Value> -> seq<string>, k: string)
    requires reply.Obj? && "recommendations" in reply.fields && reply.fields["recommendations"].Obj?
    requires k in keyOrder(reply.fields["recommendations"].fields)
    requires AnalyzeSeo(input, true, reply, keyOrder).Some?
    ensures FromAi(Str(k)) in AnalyzeSeo(input, true, reply, keyOrder).value.recommendations
  {
    var ks := keyOrder(reply.fields["recommendations"].fields);
    var i :| 0 <= i < |ks| && ks[i] == k;
    var recs := AnalyzeSeo(input, true, reply, keyOrder).value.recommendations;
    assert recs[|BasicChecks(input).0| + i] == FromAi(Str(k));
  }

  /** A keyword-density pair whose key is a list or a dict cannot be hashed: `dict.update` raises
      and the analysis fails. */
  lemma UnhashableDensityKeyFails(input: SeoInput, reply: Value, keyOrder: map<string, Value> -> seq<string>, i: nat)
    requires reply.Obj? && "keyword_density" in reply.fields && reply.fields["keyword_density"].Arr?
    requires var pairs := reply.fields["keyword_density"].items;
             i < |pairs| && pairs[i].Arr? && |pairs[i].items| == 2 && (pairs[i].items[0].Arr? || pairs[i].items[0].Obj?)
    ensures AnalyzeSeo(input, true, reply, keyOrder).None?
  {
    assert !UpdateAccepts(reply.fields["keyword_density"]);
  }

  /** Content made only of white space, with a non-blank keyword to count, makes the analysis
      fail. */
  lemma BlankContentWithKeywordFails(keyword: string, content: string, configured: bool, reply: Value,
                                     keyOrder: map<string, Value> -> seq<string>)
    requires ',' !in keyword && PyStrip(keyword) != ""
    requires |content| > 0 && AllSpace(content, IsPySpace)
    ensures AnalyzeSeo(SeoInput("", "", keyword, content, None, None), configured, reply, keyOrder).None?
  {
    var input := SeoInput("", "", keyword, content, None, None);
    SplitJoin([keyword], ',');
    assert Split(keyword, ',')[0] == keyword;
    assert |keyword| > 0;
    assert DensityDividesByZero(input);
  }
}
