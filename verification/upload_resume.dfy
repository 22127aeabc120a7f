/** The resume page: the uploaded resumes newest first, their status badges, how parsing and
    deleting update the list and the selection, and the categorised skills of a parsed resume. */
module UploadResume {
  import opened Base
  import opened Seqs
  import opened Json

  /** An uploaded resume. `uploadedAt` is the upload time in milliseconds (`getTime()` of the
      server's timestamp); `extracted` is the extracted data, `Undefined` when there is none. */
  datatype Resume = Resume(id: int, file: string, uploadedAt: int, status: string, extracted: Value)

  /** The sort key that puts later uploads first. */
  function NewestKey(r: Resume): int { -r.uploadedAt }

  /** The list sorted by upload time, newest first; resumes uploaded at the same moment keep
      the server's order. */
  function NewestFirst(resumes: seq<Resume>): (r: seq<Resume>)
    ensures multiset(r) == multiset(resumes)
    ensures forall i, j :: 0 <= i < j < |r| ==> r[i].uploadedAt >= r[j].uploadedAt
  {
    var r := SortBy(resumes, NewestKey);
    assert forall i, j :: 0 <= i < j < |r| ==> NewestKey(r[i]) <= NewestKey(r[j]);
    r
  }

  /** Same-time uploads stay in the server's order: the resumes with any one sort key `k` (those
      uploaded at time `-k`) come out in the order they came in. */
  lemma NewestFirstIsStable(resumes: seq<Resume>, k: int)
    ensures WithKey(NewestFirst(resumes), NewestKey, k) == WithKey(resumes, NewestKey, k)
  {
    NewestFirstSorts(resumes);
    SortByStable(resumes, NewestKey, k);
  }

  /** The newest-first list is the stable sort by the newest-first key. */
  lemma NewestFirstSorts(resumes: seq<Resume>)
    ensures NewestFirst(resumes) == SortBy(resumes, NewestKey)
  {
  }

  /** The answer to the resume-list request: a failure, a bare list, or a paginated object whose
      `results` is a list (`Some`) or missing or not a list (`None`). */
  datatype Response = Failed | Listed(items: seq<Resume>) | Paged(results: Option<seq<Resume>>)

  /** The resumes in a response; none on failure. */
  function ResumesIn(resp: Response): seq<Resume> {
    match resp
    case Failed => []
    case Listed(items) => items
    case Paged(results) => if results.Some? then results.value else []
  }

  /** What the page holds: the list, the selected resume, the extracted data on show and the
      generated bio. */
  datatype Page = Page(resumes: seq<Resume>, selected: Option<Resume>, extracted: Value, generatedBio: Option<string>)

  predicate HasId(r: Resume, id: int) { r.id == id }

  function WithId(id: int): Resume -> bool { r => HasId(r, id) }

  /** `loadResumes`: the listed resumes newest first; a selected resume is replaced by the first
      listed one with its id (its extracted data shown when it has any) and kept as it was when
      no listed resume has that id. */
  function LoadResumes(p: Page, resp: Response): (r: Page)
    ensures r.resumes == NewestFirst(ResumesIn(resp))
    ensures p.selected.None? ==> r.selected.None? && r.extracted == p.extracted
    ensures p.selected.Some? ==> r.selected.Some? && r.selected.value.id == p.selected.value.id
    ensures r.selected.Some? && r.selected != p.selected ==> r.selected.value in r.resumes
    ensures r.generatedBio == p.generatedBio
  {
    var sorted := NewestFirst(ResumesIn(resp));
    if p.selected.None? then p.(resumes := sorted)
    else
      match FirstIndex(sorted, WithId(p.selected.value.id))
      case None => p.(resumes := sorted)
      case Some(i) =>
        var updated := sorted[i];
        p.(resumes := sorted, selected := Some(updated),
           extracted := if JsTruthy(updated.extracted) then updated.extracted else p.extracted)
  }

  /** The status badges. */
  datatype Badge = PendingBadge | ProcessingBadge | CompletedBadge | FailedBadge

  /** The status name each badge stands for. */
  function StatusName(b: Badge): string {
    match b
    case PendingBadge => "pending"
    case ProcessingBadge => "processing"
    case CompletedBadge => "completed"
    case FailedBadge => "failed"
  }

  /** `getStatusBadge`: the badge of a known status, and the pending badge for any other. */
  function StatusBadge(status: string): (r: Badge)
    ensures status == StatusName(r) || (r == PendingBadge && status !in {"processing", "completed", "failed"})
  {
    match status
    case "pending" => PendingBadge
    case "processing" => ProcessingBadge
    case "completed" => CompletedBadge
    case "failed" => FailedBadge
    case _ => PendingBadge
  }

  /** Every badge is shown for its own status name. */
  lemma BadgeOfOwnStatus(b: Badge)
    ensures StatusBadge(StatusName(b)) == b
  {
  }

  const CompletedStatus: string := "completed"

  /** `handleParseResume` on success: the parsed resume (every entry with its id) is marked
      completed and carries the new data; every other entry is unchanged. */
  function MarkParsed(resumes: seq<Resume>, id: int, data: Value): (r: seq<Resume>)
    ensures |r| == |resumes|
    ensures forall i :: 0 <= i < |r| && resumes[i].id == id ==>
              r[i] == resumes[i].(status := CompletedStatus, extracted := data)
    ensures forall i :: 0 <= i < |r| && resumes[i].id != id ==> r[i] == resumes[i]
  {
    MapSeq(resumes, (x: Resume) => if x.id == id then x.(status := CompletedStatus, extracted := data) else x)
  }

  /** The extracted data built from a parse result: its structured data and its skills, `[]`
      when it has none. */
  function ParsedData(structuredData: Value, skills: Value): Value {
    Obj(map["structured_data" := structuredData, "skills" := JsOr(skills, Arr([]))])
  }

  /** The page after a successful parse: the list updated, the new data shown, and the parsed
      resume selected when it is in the list (the selection is otherwise kept). */
  function ParseSucceeded(p: Page, id: int, structuredData: Value, skills: Value): (r: Page)
    ensures r.extracted == ParsedData(structuredData, skills)
    ensures r.resumes == MarkParsed(p.resumes, id, r.extracted)
    ensures r.selected != p.selected ==> r.selected.Some? && r.selected.value.id == id
                                         && r.selected.value.status == CompletedStatus
                                         && r.selected.value in r.resumes
    ensures (exists i :: 0 <= i < |p.resumes| && p.resumes[i].id == id) ==>
              r.selected.Some? && r.selected.value.id == id && r.selected.value.status == CompletedStatus
  {
    var data := ParsedData(structuredData, skills);
    var updated := MarkParsed(p.resumes, id, data);
    match FirstIndex(updated, WithId(id))
    case None => p.(resumes := updated, extracted := data)
    case Some(i) => p.(resumes := updated, extracted := data, selected := Some(updated[i]))
  }

  /** Parsing keeps the list's ids, in order. */
  lemma ParseKeepsIds(resumes: seq<Resume>, id: int, data: Value)
    ensures MapSeq(MarkParsed(resumes, id, data), (x: Resume) => x.id) == MapSeq(resumes, (x: Resume) => x.id)
  {
  }

  /** `handleDeleteResume` on success: the list reloaded, and the selection, its data and the
      generated bio cleared exactly when the deleted resume was the selected one. */
  function DeleteSucceeded(p: Page, id: int, resp: Response): (r: Page)
    ensures r.resumes == NewestFirst(ResumesIn(resp))
    ensures p.selected.Some? && p.selected.value.id == id ==>
              r.selected.None? && r.extracted == Null && r.generatedBio.None?
    ensures p.selected.None? || p.selected.value.id != id ==> r == LoadResumes(p, resp)
  {
    var reloaded := LoadResumes(p, resp);
    if p.selected.Some? && p.selected.value.id == id then reloaded.(selected := None, extracted := Null, generatedBio := None)
    else reloaded
  }

  /** Deleting another resume keeps the selection (refreshed from the reloaded list). */
  lemma DeleteOtherKeepsSelection(p: Page, id: int, resp: Response)
    requires p.selected.Some? && p.selected.value.id != id
    ensures DeleteSucceeded(p, id, resp).selected.Some?
    ensures DeleteSucceeded(p, id, resp).selected.value.id == p.selected.value.id
  {
  }

  /** An extracted skill; `category` is the extractor's category name. */
  datatype Skill = Skill(name: string, category: string)

  /** The skill groups, in the order they are shown. */
  const SkillCategories: seq<string> := ["technical", "framework", "tool", "soft", "language", "other"]

  /** A shown group: its category and its skills in extraction order. */
  datatype Group = Group(category: string, skills: seq<Skill>)

  predicate InCategory(s: Skill, c: string) { s.category == c }

  function OfCategory(c: string): Skill -> bool { s => InCategory(s, c) }

  /** Some skill is in category `c`. */
  predicate HasCategory(skills: seq<Skill>, c: string) {
    exists i :: 0 <= i < |skills| && skills[i].category == c
  }

  function Occupied(skills: seq<Skill>): string -> bool { c => HasCategory(skills, c) }

  /** The groups for the categories `cats`, in their order, leaving out empty ones. */
  function GroupsFor(cats: seq<string>, skills: seq<Skill>): (r: seq<Group>)
    ensures forall g :: g in r ==> g.category in cats && |g.skills| > 0
                                   && g.skills == Filter(skills, OfCategory(g.category))
  {
    if |cats| == 0 then []
    else
      var c := cats[|cats| - 1];
      var init := GroupsFor(cats[..|cats| - 1], skills);
      var own := Filter(skills, OfCategory(c));
      if |own| > 0 then init + [Group(c, own)] else init
  }

  function CategoryOf(g: Group): string { g.category }

  /** A category has a group exactly when some skill is in it. */
  lemma FilterNonEmptyIff(skills: seq<Skill>, c: string)
    ensures |Filter(skills, OfCategory(c))| > 0 <==> HasCategory(skills, c)
  {
    if HasCategory(skills, c) {
      var i :| 0 <= i < |skills| && skills[i].category == c;
      assert OfCategory(c)(skills[i]);
    }
  }

  /** The groups shown are exactly the categories, in their fixed order, that some skill is in. */
  lemma {:induction false} GroupOrder(cats: seq<string>, skills: seq<Skill>)
    ensures MapSeq(GroupsFor(cats, skills), CategoryOf) == Filter(cats, Occupied(skills))
  {
    if |cats| > 0 {
      var c := cats[|cats| - 1];
      var init := cats[..|cats| - 1];
      GroupOrder(init, skills);
      FilterNonEmptyIff(skills, c);
      var g := GroupsFor(init, skills);
      if |Filter(skills, OfCategory(c))| > 0 {
        MapSeqAppend(g, [Group(c, Filter(skills, OfCategory(c)))], CategoryOf);
      }
    }
  }

  /** The "Categorised Skills" section: nothing when there are no skills, else the groups of the
      six fixed categories. */
  function CategorisedSkills(skills: seq<Skill>): (r: Option<seq<Group>>)
    ensures r.None? <==> |skills| == 0
    ensures r.Some? ==> MapSeq(r.value, CategoryOf) == Filter(SkillCategories, Occupied(skills))
    ensures r.Some? ==> forall g :: g in r.value ==> g.skills == Filter(skills, OfCategory(g.category))
  {
    if |skills| == 0 then None
    else
      GroupOrder(SkillCategories, skills);
      Some(GroupsFor(SkillCategories, skills))
  }

  /** A skill is shown exactly when its category is one of the six. */
  lemma ShownSkills(skills: seq<Skill>, i: nat)
    requires i < |skills|
    ensures (exists g :: g in GroupsFor(SkillCategories, skills) && skills[i] in g.skills)
            <==> skills[i].category in SkillCategories
  {
    var s := skills[i];
    var c := s.category;
    var gs := GroupsFor(SkillCategories, skills);
    GroupOrder(SkillCategories, skills);
    if c in SkillCategories {
      assert HasCategory(skills, c);
      assert Occupied(skills)(c);
      var k :| 0 <= k < |SkillCategories| && SkillCategories[k] == c;
      var cs := Filter(SkillCategories, Occupied(skills));
      assert c in cs;
      var j :| 0 <= j < |cs| && cs[j] == c;
      assert MapSeq(gs, CategoryOf)[j] == c;
      var g := gs[j];
      assert g in gs;
      assert OfCategory(c)(s);
      assert s in g.skills;
    }
  }
}
