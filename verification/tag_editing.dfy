/** The comma-separated tag field of the project and blog post editors: tag names are shown
    joined with ", " and read back by splitting at commas and trimming each piece. */
module TagEditing {
  import opened Strings
  import opened JsText

  /** The field's text for a list of tag names (`tags.map(t => t.name).join(", ")`). */
  function JoinTags(names: seq<string>): string {
    Join(names, ", ")
  }

  /** The names sent on save: none for an empty field, else every comma-separated piece
      trimmed, empty pieces included. */
  function ParseTags(field: string): (r: seq<string>)
    ensures r == [] <==> field == ""
    ensures forall i :: 0 <= i < |r| ==> ',' !in r[i] && JsTrim(r[i]) == r[i]
  {
    if field == "" then []
    else
      var r := SplitTrim(field);
      forall i | 0 <= i < |r| ensures JsTrim(r[i]) == r[i] {
        TrimIdempotent(Split(field, ',')[i], IsJsSpace);
      }
      r
  }

  /** Saving the field unchanged gives back the names it was made from, provided no name holds
      a comma or edge white space and the list is not the single empty name. Empty names in a
      longer list survive: `"a, "` reads back as `["a", ""]`. */
  lemma ParseJoinRoundTrip(names: seq<string>)
    requires forall i :: 0 <= i < |names| ==> PlainName(names[i])
    requires names != [""]
    ensures ParseTags(JoinTags(names)) == names
  {
    if |names| > 0 {
      assert JoinTags(names) != "" by {
        if |names| > 1 {
          assert |JoinTags(names)| >= 2;
        }
      }
      TagsRoundTrip(names);
    }
  }
}
