/** The dashboard's account summary: the user's display name, account age and bio preview, and
    the published/draft portfolio counters. */
module Dashboard {
  import opened Base
  import opened Strings
  import opened Seqs
  import opened Json
  import opened JsText

  /** `a?.k || b?.profile?.k || ''` for the user's own field and the profile's copy of it. */
  function UserField(user: Value, key: string): Value {
    JsOr(JsOr(Get(user, key), Get(Get(user, "profile"), key)), Str(""))
  }

  const DefaultName: string := "User"

  /** `getFullName`: "first last" trimmed when either name is set; otherwise the part of the
      email before its first '@'; otherwise "User". */
  function FullName(user: Value, show: Value -> string): (r: string)
    ensures var first := UserField(user, "first_name"); var last := UserField(user, "last_name");
            (JsTruthy(first) || JsTruthy(last)) ==> r == JsTrim(JsString(first, show) + " " + JsString(last, show))
    ensures var first := UserField(user, "first_name"); var last := UserField(user, "last_name");
            !(JsTruthy(first) || JsTruthy(last)) ==> r != "" && '@' !in r
  {
    var first := UserField(user, "first_name");
    var last := UserField(user, "last_name");
    if JsTruthy(first) || JsTruthy(last) then JsTrim(JsString(first, show) + " " + JsString(last, show))
    else
      var email := Get(user, "email");
      var local := if email.Str? then Split(email.s, '@')[0] else "";
      if local != "" then local else DefaultName
  }

  /** The name falls back to the email exactly up to its '@'. */
  lemma NameFromEmail(user: Value, show: Value -> string, local: string, domain: string)
    requires !JsTruthy(UserField(user, "first_name")) && !JsTruthy(UserField(user, "last_name"))
    requires Get(user, "email") == Str(local + "@" + domain)
    requires local != "" && '@' !in local
    ensures FullName(user, show) == local
  {
    SplitAtSeparator(local, domain, '@');
    assert local + "@" + domain == local + ['@'] + domain;
  }

  /** How old an account is, in the largest whole unit the dashboard uses. */
  datatype Age = NotAvailable | Today | Days(days: nat) | Months(months: nat) | Years(years: nat)

  /** `getAccountAge` from the whole number of days since joining (`None` when the user has no
      join date): days below 30, months of 30 days below 365 days, else years of 365 days. */
  function AccountAge(diffDays: Option<nat>): (r: Age)
    ensures r == NotAvailable <==> diffDays.None?
    ensures r == Today <==> diffDays == Some(0)
    ensures r.Days? ==> 1 <= r.days < 30 && diffDays == Some(r.days)
    ensures r.Months? ==> 1 <= r.months <= 12 && 30 * r.months <= diffDays.value < 30 * r.months + 30
                          && 30 <= diffDays.value < 365
    ensures r.Years? ==> r.years >= 1 && 365 * r.years <= diffDays.value < 365 * r.years + 365
  {
    match diffDays
    case None => NotAvailable
    case Some(d) =>
      if d == 0 then Today
      else if d < 30 then Days(d)
      else if d < 365 then Months(d / 30)
      else Years(d / 365)
  }

  /** The count followed by the unit, singular exactly when the count is one. */
  function Counted(n: nat, unit: string): string {
    NatToString(n) + " " + unit + (if n == 1 then "" else "s")
  }

  /** The text shown for an age. */
  function AgeText(a: Age): string {
    match a
    case NotAvailable => "N/A"
    case Today => "Today"
    case Days(n) => Counted(n, "day")
    case Months(n) => Counted(n, "month")
    case Years(n) => Counted(n, "year")
  }

  /** The number in an age text reads back as the count, and the unit is plural unless the count
      is one. */
  lemma CountedReadsBack(n: nat, unit: string)
    ensures var t := Counted(n, unit);
            var k := |NatToString(n)|;
            k < |t| && ParseDigits(t[..k]) == n && t[k] == ' '
            && (EndsWith(t, "s") <==> n != 1 || EndsWith(unit, "s"))
  {
    var t := Counted(n, unit);
    var k := |NatToString(n)|;
    assert t[..k] == NatToString(n);
    NatToStringRoundTrip(n);
  }

  const BioPreviewLength: nat := 150

  /** `getBioPreview`: nothing without a bio; a bio of at most 150 characters, or any bio while
      "show more" is on, in full; otherwise its first 150 characters and "...". */
  function BioPreview(user: Value, showFullBio: bool): (r: Option<string>)
    ensures r.None? <==> !UserField(user, "bio").Str? || UserField(user, "bio").s == ""
    ensures r.Some? && (showFullBio || |UserField(user, "bio").s| <= BioPreviewLength) ==> r.value == UserField(user, "bio").s
    ensures r.Some? && !showFullBio && |UserField(user, "bio").s| > BioPreviewLength ==>
              |r.value| == BioPreviewLength + 3 && r.value[..BioPreviewLength] == UserField(user, "bio").s[..BioPreviewLength]
              && EndsWith(r.value, "...")
  {
    var bio := UserField(user, "bio");
    if !JsTruthy(bio) || !bio.Str? then None
    else if |bio.s| <= BioPreviewLength then Some(bio.s)
    else if showFullBio then Some(bio.s)
    else Some(bio.s[..BioPreviewLength] + "...")
  }

  predicate IsPublished(p: Value) { JsTruthy(Get(p, "is_published")) }

  predicate IsDraft(p: Value) { !JsTruthy(Get(p, "is_published")) }

  /** The "Published" counter; 0 when the portfolio list is not an array. */
  function PublishedCount(portfolios: Value): nat {
    if portfolios.Arr? then Count(portfolios.items, IsPublished) else 0
  }

  /** The "Drafts" counter; 0 when the portfolio list is not an array. */
  function DraftCount(portfolios: Value): nat {
    if portfolios.Arr? then Count(portfolios.items, IsDraft) else 0
  }

  /** Every portfolio is counted exactly once, as published or as a draft. */
  lemma CountsPartition(portfolios: Value)
    ensures PublishedCount(portfolios) + DraftCount(portfolios) == |ItemsOf(portfolios)|
  {
    if portfolios.Arr? {
      CountPartition(portfolios.items, IsPublished, IsDraft);
    }
  }
}
