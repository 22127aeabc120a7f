/** How the front end turns a stored image path into a URL it can load. */
module ImageUtils {
  import opened Base
  import opened Strings

  /** The server address used when the build configures none. */
  const DefaultApiUrl: string := "http://localhost:8000"

  const Placeholder: string := "/placeholder-image.png"

  /** `VITE_API_URL || "http://localhost:8000"`; an unset variable is "". */
  function ApiUrl(configured: string): (r: string)
    ensures r != ""
    ensures configured != "" ==> r == configured
  {
    if configured != "" then configured else DefaultApiUrl
  }

  /** An absolute web address: it starts with `http://` or `https://`. */
  predicate IsAbsolute(path: string) {
    StartsWith(path, "http://") || StartsWith(path, "https://")
  }

  /** `getImageUrl`: no URL for a missing or empty path, an absolute URL as it is, and any
      other path appended to the server address with exactly one '/' put in front if missing.
      `None` stands for both `null` and `undefined`. */
  function GetImageUrl(apiUrl: string, path: Option<string>): (r: Option<string>)
    ensures r.None? <==> path.None? || path.value == ""
    ensures r.Some? && IsAbsolute(path.value) ==> r.value == path.value
    ensures r.Some? && !IsAbsolute(path.value) ==>
              StartsWith(r.value, apiUrl + "/") && EndsWith(r.value, path.value)
              && |r.value| <= |apiUrl| + 1 + |path.value|
  {
    match path
    case None => None
    case Some(p) =>
      if p == "" then None
      else if IsAbsolute(p) then Some(p)
      else
        var full := apiUrl + WithLeadingSlash(p);
        assert full[|full| - |p|..] == p;
        Some(full)
  }

  /** A relative path resolves the same with or without its leading '/'. */
  lemma LeadingSlashOptional(apiUrl: string, p: string)
    requires p != "" && !StartsWith(p, "/") && !IsAbsolute(p)
    ensures GetImageUrl(apiUrl, Some("/" + p)) == GetImageUrl(apiUrl, Some(p))
  {
    assert !IsAbsolute("/" + p) by {
      assert ("/" + p)[0] == '/';
    }
  }

  /** A resolved URL resolves to itself whenever the server address is absolute, as the
      default one is: resolving is idempotent. */
  lemma ResolvingIsIdempotent(apiUrl: string, path: Option<string>)
    requires IsAbsolute(apiUrl)
    ensures GetImageUrl(apiUrl, GetImageUrl(apiUrl, path)) == GetImageUrl(apiUrl, path)
  {
    var r := GetImageUrl(apiUrl, path);
    if r.Some? && !IsAbsolute(path.value) {
      var full := apiUrl + WithLeadingSlash(path.value);
      assert r.value == full;
      if StartsWith(apiUrl, "http://") {
        assert full[..7] == apiUrl[..7];
      } else {
        assert full[..8] == apiUrl[..8];
      }
    }
  }

  /** `getImageWithFallback`: the resolved URL, else the fallback when it is non-empty, else
      the placeholder image. */
  function GetImageWithFallback(apiUrl: string, path: Option<string>, fallback: Option<string>): (r: string)
    ensures r != ""
    ensures GetImageUrl(apiUrl, path).Some? ==> r == GetImageUrl(apiUrl, path).value
    ensures GetImageUrl(apiUrl, path).None? && fallback.Some? && fallback.value != "" ==> r == fallback.value
    ensures GetImageUrl(apiUrl, path).None? && (fallback.None? || fallback.value == "") ==> r == Placeholder
  {
    match GetImageUrl(apiUrl, path)
    case Some(url) => url
    case None =>
      if fallback.Some? && fallback.value != "" then fallback.value else Placeholder
  }
}
