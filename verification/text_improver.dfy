/** Text improvement: a placeholder when no AI client is configured, otherwise one request to the
    text generator whose prompt lists the requested improvements. */
module TextImprover {
  import opened Strings

  const PlaceholderPrefix: string := "[AI Improved - Placeholder]\n"
  const GrammarPhrase: string := "fix any grammar and spelling errors"
  const SeoPhrase: string := "optimize for SEO with relevant keywords"
  const DefaultPhrase: string := "enhance the writing"

  /** What `improve_text` does: return a text directly, or ask the generator with a prompt,
      a token limit and a temperature. */
  datatype Improvement = Done(text: string) | Ask(prompt: string, maxTokens: nat, temperature: real)

  /** The requested improvement phrases, grammar first. */
  function Improvements(grammar: bool, seo: bool): (r: seq<string>)
    ensures GrammarPhrase in r <==> grammar
    ensures SeoPhrase in r <==> seo
    ensures |r| == (if grammar then 1 else 0) + (if seo then 1 else 0)
    ensures grammar ==> r[0] == GrammarPhrase
  {
    (if grammar then [GrammarPhrase] else []) + (if seo then [SeoPhrase] else [])
  }

  /** The phrases joined with ", ", or the default phrase when none is requested. */
  function ImprovementsText(grammar: bool, seo: bool): (r: string)
  {
    var phrases := Improvements(grammar, seo);
    if |phrases| > 0 then Join(phrases, ", ") else DefaultPhrase
  }

  /** The four possible phrase texts. */
  lemma ImprovementsTextCases(grammar: bool, seo: bool)
    ensures ImprovementsText(grammar, seo) ==
            if grammar && seo then GrammarPhrase + ", " + SeoPhrase
            else if grammar then GrammarPhrase
            else if seo then SeoPhrase
            else DefaultPhrase
  {
    if grammar && seo {
      assert Improvements(grammar, seo) == [GrammarPhrase, SeoPhrase];
      assert Join([GrammarPhrase, SeoPhrase], ", ") == GrammarPhrase + ", " + Join([SeoPhrase], ", ");
    } else if grammar {
      assert Improvements(grammar, seo) == [GrammarPhrase];
    } else if seo {
      assert Improvements(grammar, seo) == [SeoPhrase];
    }
  }

  const PromptHead: string := "\n    Improve the following text for a "
  const PromptTone: string := ".\n    Tone: "
  const PromptPlease: string := "\n    Please "
  const PromptMeaning: string := " while maintaining the original meaning and message.\n    \n    Original text:\n    "
  const PromptTail: string := "\n    \n    Return only the improved text, without explanations or markdown formatting.\n    "

  /** The prompt's pieces, in order. */
  function PromptParts(text: string, tone: string, purpose: string, improvements: string): seq<string> {
    [PromptHead, purpose, PromptTone, tone, PromptPlease, improvements, PromptMeaning, text, PromptTail]
  }

  /** `improve_text`. */
  function ImproveText(text: string, tone: string, purpose: string, grammar: bool, seo: bool,
                       configured: bool): (r: Improvement)
    ensures !configured ==> r.Done? && StartsWith(r.text, PlaceholderPrefix)
                            && r.text[|PlaceholderPrefix|..] == text
    ensures configured ==> r.Ask? && r.maxTokens == 1000 && r.temperature == 0.7
  {
    if !configured then Done(PlaceholderPrefix + text)
    else Ask(Concat(PromptParts(text, tone, purpose, ImprovementsText(grammar, seo))), 1000, 0.7)
  }

  /** The prompt holds the purpose, the tone, the improvement phrases and the original text, each
      right after its label. */
  lemma PromptMentions(text: string, tone: string, purpose: string, grammar: bool, seo: bool)
    ensures var r := ImproveText(text, tone, purpose, grammar, seo, true);
            var parts := PromptParts(text, tone, purpose, ImprovementsText(grammar, seo));
            OccursAt(r.prompt, purpose, |Concat(parts[..1])|)
            && OccursAt(r.prompt, tone, |Concat(parts[..3])|)
            && OccursAt(r.prompt, ImprovementsText(grammar, seo), |Concat(parts[..5])|)
            && OccursAt(r.prompt, text, |Concat(parts[..7])|)
  {
    var parts := PromptParts(text, tone, purpose, ImprovementsText(grammar, seo));
    ConcatAt(parts, 1);
    ConcatAt(parts, 3);
    ConcatAt(parts, 5);
    ConcatAt(parts, 7);
  }
}
