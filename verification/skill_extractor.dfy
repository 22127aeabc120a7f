/** Skill extraction from resume text: a fixed keyword scan when no AI client is configured, and
    the shaping of the AI reply otherwise. */
module SkillExtractor {
  import opened Strings
  import opened Seqs
  import opened Json

  /** The keywords scanned for, in scan order. */
  const TechnicalKeywords: seq<string> := [
    "python", "javascript", "react", "django", "node", "sql", "html", "css",
    "java", "c++", "git", "docker", "aws", "linux", "api", "rest", "graphql"]

  /** The keywords that occur in the lower-cased text, in scan order. Matching is by substring. */
  function Matched(text: string): (r: seq<string>)
    ensures |r| <= |TechnicalKeywords|
    ensures forall k :: k in r <==> k in TechnicalKeywords && Contains(Lower(text), k)
  {
    Filter(TechnicalKeywords, k => Contains(Lower(text), k))
  }

  /** The entry for one found keyword. */
  function Entry(keyword: string): Value {
    Obj(map["name" := Str(Title(keyword)), "category" := Str("technical"), "confidence" := Real(0.6)])
  }

  function Entries(keywords: seq<string>): (r: seq<Value>)
    ensures |r| == |keywords|
    ensures forall i :: 0 <= i < |keywords| ==> r[i] == Entry(keywords[i])
  {
    seq(|keywords|, i requires 0 <= i < |keywords| => Entry(keywords[i]))
  }

  /** `extract_skills`. `reply` is what the JSON generator returns when the client is configured. */
  function ExtractSkills(text: string, configured: bool, reply: Value): (r: Value)
    ensures !configured ==> r.Arr? && |r.items| <= 20 && |r.items| == |Matched(text)|
                            && forall i :: 0 <= i < |r.items| ==> r.items[i] == Entry(Matched(text)[i])
    ensures configured && reply.Arr? ==> r == reply
    ensures configured && Has(reply, "skills") ==> r == reply.fields["skills"]
    ensures configured && !reply.Arr? && !Has(reply, "skills") ==> r == Arr([])
  {
    if !configured then
      var found := Entries(Matched(text));
      Arr(Take(found, 20))
    else if reply.Arr? then reply
    else if reply.Obj? && "skills" in reply.fields then reply.fields["skills"]
    else Arr([])
  }

  /** Substring matching: text mentioning JavaScript also reports Java. */
  lemma JavaScriptAlsoYieldsJava(text: string)
    requires Contains(Lower(text), "javascript")
    ensures "java" in Matched(text)
  {
    assert OccursAt("javascript", "java", 0);
    ContainsWithin(Lower(text), "javascript", "java");
  }
}
