/** The example portfolio shown for each template type: its owner, and the five sections every
    example has. The sections' prose (bios, skill lists, sample projects) is left abstract. */
module TemplateExamples {
  import opened Strings
  import opened TemplateTypes
  import Json
  import TemplateRenderer

  datatype ExampleComponent = ExampleComponent(componentType: string, title: string, order: int, isVisible: bool)

  datatype ExamplePortfolio = ExamplePortfolio(title: string, templateType: string, components: seq<ExampleComponent>)

  /** The section types of every example, in order. */
  const SectionTypes: seq<string> := ["header", "about", "skills", "projects", "contact"]

  /** The invariants of an example: the five sections in order with orders 1 to 5, all visible,
      and the portfolio titled like its header. */
  predicate WellFormedExample(e: ExamplePortfolio) {
    |e.components| == |SectionTypes|
    && (forall i :: 0 <= i < |e.components| ==>
          e.components[i].componentType == SectionTypes[i] && e.components[i].order == i + 1
          && e.components[i].isVisible)
    && e.title == e.components[0].title
  }

  /** The person each example portfolio belongs to. */
  function Owner(t: TemplateType): string {
    match t
    case Classic => "John Anderson"
    case Designer => "Sarah Martinez"
    case Developer => "Alex Chen"
    case Minimalist => "Emma Wilson"
    case Modern => "Jordan Taylor"
  }

  /** The example portfolio of a template type (`getClassicExampleData` and its siblings). */
  function ExampleFor(t: TemplateType): (e: ExamplePortfolio)
    ensures WellFormedExample(e)
    ensures e.templateType == TypeName(t)
  {
    ExamplePortfolio(Owner(t), TypeName(t), [
      ExampleComponent("header", Owner(t), 1, true),
      ExampleComponent("about", "", 2, true),
      ExampleComponent("skills", "", 3, true),
      ExampleComponent("projects", "", 4, true),
      ExampleComponent("contact", "", 5, true)])
  }

  /** `getExampleDataForTemplate`: the name is lower-cased; a known type gets its own example,
      anything else the modern one. */
  function GetExampleDataForTemplate(name: string): (e: ExamplePortfolio)
    ensures WellFormedExample(e)
    ensures ParseType(Lower(name)).Some? ==> e.templateType == Lower(name)
    ensures ParseType(Lower(name)).None? ==> e == ExampleFor(Modern)
  {
    ExampleFor(TypeOrModern(Lower(name)))
  }

  /** The example chosen for a name renders with the template that name selects. */
  lemma ExampleRendersWithItsTemplate(name: string)
    ensures TemplateRenderer.RenderedTemplate(Json.Str(GetExampleDataForTemplate(name).templateType))
            == TypeOrModern(Lower(name))
  {
    TemplateRenderer.RenderedTemplateOfName(TypeOrModern(Lower(name)));
  }

  /** Distinct template types have distinct owners, so an example identifies its template. */
  lemma OwnersDistinct(s: TemplateType, t: TemplateType)
    requires s != t
    ensures ExampleFor(s).title != ExampleFor(t).title
  {
  }
}
