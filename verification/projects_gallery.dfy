/** The projects gallery: one card per displayable project, with its image, a shortened
    description, at most five technology badges and its validated links. */
module ProjectsGallery {
  import opened Base
  import opened Strings
  import opened Seqs
  import opened Json
  import ImageUtils
  import ComponentData

  /** Descriptions longer than this are cut. */
  const DescriptionLimit: nat := 150

  /** How many technology badges a card shows before the "+k more" badge. */
  const BadgeLimit: nat := 5

  /** A rendered card. `more` is the number in the "+k more" badge, 0 when there is none. */
  datatype Card = Card(
    id: Value,
    title: Value,
    image: Option<string>,
    description: Value,
    technologies: seq<Value>,
    badges: seq<Value>,
    more: nat,
    github: Option<string>,
    live: Option<string>)

  /** `!project || !project.id || !project.title`: such a project gets no card. */
  predicate Skipped(project: Value) {
    !JsTruthy(project) || !JsTruthy(Get(project, "id")) || !JsTruthy(Get(project, "title"))
  }

  /** `getProjectImageUrl`: no image when the project has none or its image already failed to
      load; otherwise the resolved address of the stored path. */
  function ImageOf(project: Value, errors: set<Value>, apiUrl: string): (r: Option<string>)
    ensures r.Some? ==> JsTruthy(Get(project, "image")) && Get(project, "id") !in errors
    ensures JsTruthy(Get(project, "image")) && Get(project, "image").Str? && Get(project, "id") !in errors ==> r.Some?
  {
    var image := Get(project, "image");
    if !JsTruthy(image) || Get(project, "id") in errors then None
    else if image.Str? then ImageUtils.GetImageUrl(apiUrl, Some(image.s))
    else None
  }

  /** A tag's display name: a string tag itself, else its `name` field. */
  function TagName(t: Value): Value {
    if t.Str? then t else Get(t, "name")
  }

  /** The technologies: the `technologies` array when there is one, else the truthy names of the
      `tags` array, else none. */
  function TechnologiesOf(project: Value): (r: seq<Value>)
    ensures Get(project, "technologies").Arr? ==> r == Get(project, "technologies").items
    ensures !Get(project, "technologies").Arr? && Get(project, "tags").Arr? ==>
              (forall i :: 0 <= i < |r| ==> JsTruthy(r[i]))
              && forall i :: 0 <= i < |Get(project, "tags").items| ==>
                   JsTruthy(TagName(Get(project, "tags").items[i])) ==> TagName(Get(project, "tags").items[i]) in r
    ensures !Get(project, "technologies").Arr? && !Get(project, "tags").Arr? ==> r == []
  {
    var techs := Get(project, "technologies");
    var tags := Get(project, "tags");
    if techs.Arr? then techs.items
    else if tags.Arr? then Filter(MapSeq(tags.items, TagName), JsTruthy)
    else []
  }

  /** `short_description || description || ''`. */
  function DescriptionOf(project: Value): Value {
    JsOr(JsOr(Get(project, "short_description"), Get(project, "description")), Str(""))
  }

  /** The displayed description: a string longer than the limit keeps its first 150 characters
      followed by "..."; anything else is shown as it is. */
  function Shortened(d: Value): (r: Value)
    ensures d.Str? && |d.s| > DescriptionLimit ==>
              r.Str? && |r.s| == DescriptionLimit + 3 && r.s[..DescriptionLimit] == d.s[..DescriptionLimit]
              && EndsWith(r.s, "...")
    ensures !(d.Str? && |d.s| > DescriptionLimit) ==> r == d
  {
    if d.Str? && |d.s| > DescriptionLimit then Str(d.s[..DescriptionLimit] + "...") else d
  }

  /** The badges: the first five technologies, and how many more there are. */
  function Badges(techs: seq<Value>): (r: (seq<Value>, nat))
    ensures r.0 <= techs && |r.0| <= BadgeLimit
    ensures |r.0| + r.1 == |techs|
    ensures r.1 > 0 ==> |r.0| == BadgeLimit
  {
    (Take(techs, BadgeLimit), if |techs| > BadgeLimit then |techs| - BadgeLimit else 0)
  }

  /** The card of one project, or nothing when it is skipped. */
  function CardOf(project: Value, errors: set<Value>, apiUrl: string, parses: string -> bool): (r: Option<Card>)
    ensures r.None? <==> Skipped(project)
    ensures r.Some? ==> r.value.id == Get(project, "id") && r.value.title == Get(project, "title")
    ensures r.Some? ==> r.value.technologies == TechnologiesOf(project)
    ensures r.Some? ==> r.value.badges <= r.value.technologies
                        && |r.value.badges| == Min(|r.value.technologies|, BadgeLimit)
    ensures r.Some? ==> r.value.more == |r.value.technologies| - |r.value.badges|
  {
    if Skipped(project) then None
    else
      var techs := TechnologiesOf(project);
      var badges := Badges(techs);
      Some(Card(Get(project, "id"), Get(project, "title"), ImageOf(project, errors, apiUrl),
                Shortened(DescriptionOf(project)), techs, badges.0, badges.1,
                ComponentData.ValidateUrl(Get(project, "github_url"), parses),
                ComponentData.ValidateUrl(Get(project, "live_url"), parses)))
  }

  /** The card maker with the gallery's state fixed. */
  function CardMaker(errors: set<Value>, apiUrl: string, parses: string -> bool): Value -> Option<Card> {
    p => CardOf(p, errors, apiUrl, parses)
  }

  /** The gallery: the "No projects to display" state, or the cards. */
  datatype Gallery = NoProjects | Cards(cards: seq<Card>)

  /** Whether card `c` belongs to some displayable project of `items`. */
  predicate FromSomeProject(c: Card, items: seq<Value>) {
    exists i :: 0 <= i < |items| && !Skipped(items[i]) && c.id == Get(items[i], "id")
  }

  function Render(projects: Value, errors: set<Value>, apiUrl: string, parses: string -> bool): (r: Gallery)
    ensures r.NoProjects? <==> !projects.Arr? || |projects.items| == 0
    ensures r.Cards? ==> forall c :: c in r.cards ==> FromSomeProject(c, projects.items)
    ensures r.Cards? ==> forall i :: 0 <= i < |projects.items| && !Skipped(projects.items[i]) ==>
                            CardOf(projects.items[i], errors, apiUrl, parses).value in r.cards
  {
    if !projects.Arr? || |projects.items| == 0 then NoProjects
    else
      var cards := KeepSome(projects.items, CardMaker(errors, apiUrl, parses));
      assert forall c :: c in cards ==> FromSomeProject(c, projects.items) by {
        forall c | c in cards ensures FromSomeProject(c, projects.items) {
          var i :| 0 <= i < |projects.items| && CardMaker(errors, apiUrl, parses)(projects.items[i]) == Some(c);
        }
      }
      Cards(cards)
  }

  /** Once a project's image has failed to load, its card shows the placeholder, while every
      other project keeps the image it had. */
  lemma ImageErrorHidesOnlyThatImage(project: Value, other: Value, errors: set<Value>, apiUrl: string)
    requires Get(other, "id") != Get(project, "id")
    ensures ImageOf(project, errors + {Get(project, "id")}, apiUrl).None?
    ensures ImageOf(other, errors + {Get(project, "id")}, apiUrl) == ImageOf(other, errors, apiUrl)
  {
  }

  /** A card shows the "+k more" badge exactly when the project has more than five technologies. */
  lemma MoreBadgeIff(project: Value, errors: set<Value>, apiUrl: string, parses: string -> bool)
    requires !Skipped(project)
    ensures var c := CardOf(project, errors, apiUrl, parses).value;
            c.more > 0 <==> |TechnologiesOf(project)| > BadgeLimit
  {
  }

  /** A description at most 150 characters long is shown whole; a longer one is recognisable by
      its prefix. */
  lemma ShortenedKeepsPrefix(s: string)
    ensures var r := Shortened(Str(s)).s;
            |r| <= DescriptionLimit + 3 && r[..Min(|s|, DescriptionLimit)] == s[..Min(|s|, DescriptionLimit)]
  {
  }
}
