/** The five portfolio template types the front end knows, and how a type name selects one:
    every consumer falls back to the modern template for a name it does not know. */
module TemplateTypes {
  import opened Base

  datatype TemplateType = Modern | Classic | Minimalist | Developer | Designer

  /** The name a template type goes by (`template_type` of a portfolio). */
  function TypeName(t: TemplateType): string {
    match t
    case Modern => "modern"
    case Classic => "classic"
    case Minimalist => "minimalist"
    case Developer => "developer"
    case Designer => "designer"
  }

  /** The template type a name denotes, if it denotes one. */
  function ParseType(s: string): (r: Option<TemplateType>)
    ensures forall t :: r == Some(t) <==> s == TypeName(t)
  {
    if s == "modern" then Some(Modern)
    else if s == "classic" then Some(Classic)
    else if s == "minimalist" then Some(Minimalist)
    else if s == "developer" then Some(Developer)
    else if s == "designer" then Some(Designer)
    else None
  }

  /** The template a name selects: the one it denotes, else modern. */
  function TypeOrModern(s: string): (t: TemplateType)
    ensures t != Modern ==> TypeName(t) == s
    ensures ParseType(s).None? ==> t == Modern
  {
    ParseType(s).GetOr(Modern)
  }

  /** Every template type is selected by its own name. */
  lemma {:induction false} TypeNameSelects(t: TemplateType)
    ensures TypeOrModern(TypeName(t)) == t
  {
    assert ParseType(TypeName(t)) == Some(t);
  }
}
