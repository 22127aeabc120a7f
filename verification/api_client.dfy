/** The front end's API client: how a request URL is built, the token refresh around a
    request, how an error response becomes an error message, and the small reshaping done by
    individual endpoints. The browser (`fetch`, `localStorage`) is replaced by oracles. */
module ApiClient {
  import opened Base
  import opened Strings
  import opened Seqs
  import opened Json
  import opened JsText

  /** The API root used when the build configures none. */
  const DefaultBaseUrl: string := "http://localhost:8000/api/v1"

  /** `VITE_API_URL || 'http://localhost:8000/api/v1'`; an unset variable is "". */
  function BaseUrl(configured: string): (r: string)
    ensures r != ""
    ensures configured != "" ==> r == configured
  {
    if configured != "" then configured else DefaultBaseUrl
  }

  /** The URL a request goes to: an endpoint starting with "http" as it is, any other one after
      the base URL with a '/' between them unless the endpoint brings its own. */
  function JoinUrl(base: string, endpoint: string): (url: string)
    ensures StartsWith(endpoint, "http") ==> url == endpoint
    ensures !StartsWith(endpoint, "http") ==>
              |url| > |base| && url[..|base|] == base && url[|base|] == '/'
              && (url[|base| + 1..] == endpoint || "/" + url[|base| + 1..] == endpoint)
  {
    if StartsWith(endpoint, "http") then endpoint
    else
      var url := base + WithLeadingSlash(endpoint);
      assert url[|base|..] == WithLeadingSlash(endpoint);
      url
  }

  /** A relative endpoint reaches the same URL with or without its leading '/'. */
  lemma JoinUrlSlashOptional(base: string, endpoint: string)
    requires !StartsWith(endpoint, "http") && !StartsWith(endpoint, "/")
    ensures JoinUrl(base, "/" + endpoint) == JoinUrl(base, endpoint)
  {
    assert !StartsWith("/" + endpoint, "http") by {
      assert ("/" + endpoint)[0] == '/';
    }
  }

  // ---------------------------------------------------------------------------------------
  // Responses and outcomes

  /** What `response.json()` yields: an object's fields in the order the server wrote them,
      any other JSON value, or a body that is not JSON at all. */
  datatype Payload = Fields(pairs: seq<(string, Value)>) | Other(v: Value) | NotJson

  /** A response as the client reads it. `jsonContent` is whether its content type names
      `application/json`. */
  datatype Response = Response(status: int, statusText: string, jsonContent: bool, payload: Payload)

  predicate IsOk(r: Response) {
    200 <= r.status <= 299
  }

  /** The response details attached to an error thrown for a failed response; `carried` holds
      the extra fields copied onto the error. */
  datatype ErrorResponse = ErrorResponse(status: int, statusText: string, data: Value, carried: map<string, Value>)

  datatype ApiError = ApiError(message: string, response: Option<ErrorResponse>)

  /** How a request ends: with data, with a thrown error, or with the error `response.json()`
      raises on a body that does not parse. */
  datatype Outcome = Done(data: Value) | Failed(error: ApiError) | Unparsable

  /** The whole exchange: the outcome, the token sent with each fetch in order (`None` when no
      Authorization header was sent), how often a refresh was attempted, and whether the stored
      tokens were cleared. */
  datatype Exchange = Exchange(outcome: Outcome, sent: seq<Option<string>>, refreshes: nat, cleared: bool)

  /** The JSON value a payload stands for. */
  function PayloadValue(p: Payload): Value {
    match p
    case Fields(pairs) => ObjOf(pairs)
    case Other(v) => v
    case NotJson => Obj(map[])
  }

  /** `return response.json()`: the parsed body, or the parse error. */
  function ReadJson(p: Payload): Outcome {
    if p.NotJson? then Unparsable else Done(PayloadValue(p))
  }

  /** A usable token: present and non-empty (`if (token)`). */
  predicate Usable(t: Option<string>) {
    t.Some? && t.value != ""
  }

  /** The message every error thrown inside a request is replaced by when it mentions CORS. */
  const CorsMessage: string :=
    "CORS error: The backend server may not be configured to allow requests from this origin. Please check CORS settings."

  /** The request's `catch`: an error whose message contains "CORS" is replaced by the CORS
      message, without response details; any other error is rethrown as it is. */
  function Rethrown(e: ApiError): (r: ApiError)
    ensures Contains(e.message, "CORS") ==> r == ApiError(CorsMessage, None)
    ensures !Contains(e.message, "CORS") ==> r == e
  {
    if Contains(e.message, "CORS") then ApiError(CorsMessage, None) else e
  }

  function Plain(message: string): ApiError {
    ApiError(message, None)
  }

  // ---------------------------------------------------------------------------------------
  // The request protocol

  /** How many refreshes happen before the first fetch: one when an authenticated request
      has no usable stored token. */
  function RefreshesBefore(requiresAuth: bool, stored: Option<string>): nat {
    if requiresAuth && !Usable(stored) then 1 else 0
  }

  /** The token the first fetch carries: the stored one, else the refreshed one, and none
      unless it is usable or when the request needs no authentication. */
  function FirstToken(requiresAuth: bool, stored: Option<string>, refresh: nat -> Option<string>): (t: Option<string>)
    ensures t.Some? ==> Usable(t) && requiresAuth
    ensures requiresAuth && Usable(stored) ==> t == stored
    ensures requiresAuth && !Usable(stored) && Usable(refresh(0)) ==> t == refresh(0)
  {
    var candidate := if !requiresAuth then None else if Usable(stored) then stored else refresh(0);
    if Usable(candidate) then candidate else None
  }

  /** `request`: with authentication, a missing stored token is refreshed once before the
      request, and the Authorization header is sent only with a usable token. A 401 on an
      authenticated request triggers one more refresh: with a new token the request is retried
      once, without one the tokens are cleared and the request fails. Other failed responses
      become an `ErrorFor` error, and a successful one without a JSON content type yields {}.
      `refresh(k)` is the k-th refresh attempt's new access token; `fetch(k, t)` is the k-th
      fetch of the URL, sent with token `t`. */
  function Request(requiresAuth: bool, stored: Option<string>, refresh: nat -> Option<string>,
                   fetch: (nat, Option<string>) -> Response, show: Value -> string): (x: Exchange)
    ensures 1 <= |x.sent| <= 2 && x.refreshes <= 2
    ensures x.sent[0] == FirstToken(requiresAuth, stored, refresh)
    ensures forall k :: 0 <= k < |x.sent| && x.sent[k].Some? ==> Usable(x.sent[k])
    ensures !requiresAuth ==> x.refreshes == 0 && x.sent == [None] && !x.cleared
    ensures var retry := RefreshesBefore(requiresAuth, stored);
            var unauthorised := requiresAuth && fetch(0, x.sent[0]).status == 401;
            (|x.sent| == 2 <==> unauthorised && Usable(refresh(retry)))
            && (|x.sent| == 2 ==> x.sent[1] == refresh(retry))
            && (x.cleared <==> unauthorised && !Usable(refresh(retry)))
            && x.refreshes == retry + (if unauthorised then 1 else 0)
    ensures x.cleared ==> x.outcome == Failed(Plain("Authentication failed"))
    ensures var first := fetch(0, x.sent[0]);
            !(requiresAuth && first.status == 401) ==>
              x.outcome == (if !IsOk(first) then Failed(Rethrown(ErrorFor(first, show)))
                            else if first.jsonContent then ReadJson(first.payload)
                            else Done(Obj(map[])))
    ensures |x.sent| == 2 ==>
              var second := fetch(1, x.sent[1]);
              x.outcome == (if IsOk(second) then ReadJson(second.payload)
                            else Failed(Rethrown(Plain("API request failed: " + second.statusText))))
  {
    var before := RefreshesBefore(requiresAuth, stored);
    var header := FirstToken(requiresAuth, stored, refresh);
    var first := fetch(0, header);
    if first.status == 401 && requiresAuth then
      var renewed := refresh(before);
      if Usable(renewed) then
        var second := fetch(1, renewed);
        var outcome :=
          if !IsOk(second) then Failed(Rethrown(Plain("API request failed: " + second.statusText)))
          else ReadJson(second.payload);
        Exchange(outcome, [header, renewed], before + 1, false)
      else
        Exchange(Failed(Plain("Authentication failed")), [header], before + 1, true)
    else if !IsOk(first) then
      Exchange(Failed(Rethrown(ErrorFor(first, show))), [header], before, false)
    else
      Exchange(if first.jsonContent then ReadJson(first.payload) else Done(Obj(map[])), [header], before, false)
  }

  /** The URL is fetched at most twice, and twice only to retry a 401 with a new token. */
  lemma AtMostOneRetry(requiresAuth: bool, stored: Option<string>, refresh: nat -> Option<string>,
                       fetch: (nat, Option<string>) -> Response, show: Value -> string)
    ensures var x := Request(requiresAuth, stored, refresh, fetch, show);
            |x.sent| == 1 || (|x.sent| == 2 && fetch(0, x.sent[0]).status == 401 && Usable(x.sent[1]))
  {
  }

  /** A successful first response without a JSON content type yields {} whatever its body. */
  lemma EmptyResponseIsEmptyObject(requiresAuth: bool, stored: Option<string>, refresh: nat -> Option<string>,
                                   fetch: (nat, Option<string>) -> Response, show: Value -> string)
    requires var x := Request(requiresAuth, stored, refresh, fetch, show);
             IsOk(fetch(0, x.sent[0])) && !fetch(0, x.sent[0]).jsonContent
    ensures Request(requiresAuth, stored, refresh, fetch, show).outcome == Done(Obj(map[]))
  {
  }

  /** `upload`: the same URL and token rules as a request, but no retry on 401 and only the
      base error message. */
  function Upload(requiresAuth: bool, stored: Option<string>, refresh: nat -> Option<string>,
                  fetch: (nat, Option<string>) -> Response, show: Value -> string): (x: Exchange)
    ensures x.sent == [FirstToken(requiresAuth, stored, refresh)] && !x.cleared
    ensures x.refreshes == RefreshesBefore(requiresAuth, stored)
    ensures var response := fetch(0, x.sent[0]);
            (!IsOk(response) ==>
               x.outcome == Failed(Plain(BaseMessage(ErrorData(response.payload), response.statusText, show))))
            && (IsOk(response) ==> x.outcome == ReadJson(response.payload))
  {
    var header := FirstToken(requiresAuth, stored, refresh);
    var response := fetch(0, header);
    var outcome :=
      if !IsOk(response) then Failed(Plain(BaseMessage(ErrorData(response.payload), response.statusText, show)))
      else ReadJson(response.payload);
    Exchange(outcome, [header], RefreshesBefore(requiresAuth, stored), false)
  }

  // ---------------------------------------------------------------------------------------
  // Error messages

  /** `await response.json().catch(() => ({}))`. */
  function ErrorData(p: Payload): Value {
    PayloadValue(p)
  }

  /** `errorData.error || errorData.detail || response.statusText`, as a message string. */
  function BaseMessage(data: Value, statusText: string, show: Value -> string): (m: string)
    ensures JsTruthy(Get(data, "error")) ==> m == JsString(Get(data, "error"), show)
    ensures !JsTruthy(Get(data, "error")) && JsTruthy(Get(data, "detail")) ==> m == JsString(Get(data, "detail"), show)
    ensures !JsTruthy(Get(data, "error")) && !JsTruthy(Get(data, "detail")) ==> m == statusText
  {
    JsString(JsOr(JsOr(Get(data, "error"), Get(data, "detail")), Str(statusText)), show)
  }

  /** The keys that never count as a field of a validation error. */
  predicate Reserved(key: string) {
    key == "error" || key == "detail" || key == "error_type" || key == "instructions"
    || key == "job_id" || key == "status"
  }

  /** `Object.keys(errorData)` with their values: an object's fields in written order, an
      array's indices, a string's character positions, and nothing for other values. */
  function Entries(p: Payload): (r: seq<(string, Value)>)
    ensures p.Fields? ==> r == p.pairs
  {
    match p
    case Fields(pairs) => pairs
    case Other(Arr(items)) => seq(|items|, i requires 0 <= i < |items| => (NatToString(i), items[i]))
    case Other(Str(s)) => seq(|s|, i requires 0 <= i < |s| => (NatToString(i), Str([s[i]])))
    case _ => []
  }

  /** The response looks like a validation error: some unreserved key holds an array or a
      string. */
  predicate IsValidationError(entries: seq<(string, Value)>) {
    exists i :: 0 <= i < |entries| && !Reserved(entries[i].0) && (entries[i].1.Arr? || entries[i].1.Str?)
  }

  /** `Array.isArray(v) ? v[0] : v`. */
  function FirstError(v: Value): Value {
    if v.Arr? then (if |v.items| > 0 then v.items[0] else Undefined) else v
  }

  /** A word with its first letter upper-cased (`charAt(0).toUpperCase() + slice(1)`). */
  function Capitalized(w: string): (r: string)
    ensures |r| == |w|
  {
    if |w| == 0 then "" else [UpperChar(w[0])] + w[1..]
  }

  function CapitalizeAll(words: seq<string>): (r: seq<string>)
    ensures |r| == |words|
    ensures forall i :: 0 <= i < |words| ==> r[i] == Capitalized(words[i])
  {
    if |words| == 0 then [] else [Capitalized(words[0])] + CapitalizeAll(words[1..])
  }

  /** A field's label: its underscore-separated words capitalised and joined with spaces. */
  function Label(field: string): string {
    Join(CapitalizeAll(Split(field, '_')), " ")
  }

  /** What the label holds at position `i` of the field name. */
  function LabelChar(field: string, i: nat): char
    requires i < |field|
  {
    if field[i] == '_' then ' '
    else if i == 0 || field[i - 1] == '_' then UpperChar(field[i])
    else field[i]
  }

  /** The label, character by character: each '_' becomes a space and each letter that starts
      a word is upper-cased; nothing else changes. */
  lemma {:induction false} LabelPointwise(field: string)
    ensures |Label(field)| == |field|
    ensures forall i :: 0 <= i < |field| ==> Label(field)[i] == LabelChar(field, i)
    decreases |field|
  {
    if '_' !in field {
      LabelOfWord(field);
    } else {
      var k :| 0 <= k < |field| && field[k] == '_' && forall j :: 0 <= j < k ==> field[j] != '_' by {
        FirstUnderscore(field, 0);
      }
      var x, y := field[..k], field[k + 1..];
      assert field == x + "_" + y;
      LabelPointwise(y);
      LabelPointwiseStep(x, y);
    }
  }

  /** A name without separators is one capitalised word. */
  lemma LabelOfWord(field: string)
    requires '_' !in field
    ensures |Label(field)| == |field|
    ensures forall i :: 0 <= i < |field| ==> Label(field)[i] == LabelChar(field, i)
  {
    SplitPrefix(field, "", '_');
    assert field + "" == field;
    assert Split(field, '_') == [field];
    assert Label(field) == Capitalized(field);
  }

  /** The pointwise description carries over from the rest of a name to the whole name. */
  lemma LabelPointwiseStep(x: string, y: string)
    requires '_' !in x
    requires |Label(y)| == |y| && forall i :: 0 <= i < |y| ==> Label(y)[i] == LabelChar(y, i)
    ensures var field := x + "_" + y;
            |Label(field)| == |field| && forall i :: 0 <= i < |field| ==> Label(field)[i] == LabelChar(field, i)
  {
    var field := x + "_" + y;
    var k := |x|;
    LabelAtSeparator(x, y);
    var l := Label(field);
    assert l == Capitalized(x) + " " + Label(y);
    forall i | 0 <= i < |field|
      ensures l[i] == LabelChar(field, i)
    {
      if i > k {
        assert l[i] == Label(y)[i - k - 1];
        assert field[i] == y[i - k - 1];
        assert field[i - 1] == (if i - 1 == k then '_' else y[i - k - 2]);
        assert LabelChar(y, i - k - 1) == LabelChar(field, i);
      } else if i < k {
        assert l[i] == Capitalized(x)[i];
        assert field[i] == x[i];
      } else {
        assert field[i] == '_';
      }
    }
  }

  /** The label of a name with a separator after a separator-free word. */
  lemma LabelAtSeparator(x: string, y: string)
    requires '_' !in x
    ensures Label(x + "_" + y) == Capitalized(x) + " " + Label(y)
  {
    SplitAtSeparator(x, y, '_');
    var rest := Split(y, '_');
    assert Split(x + "_" + y, '_') == [x] + rest;
    assert CapitalizeAll([x] + rest) == [Capitalized(x)] + CapitalizeAll(rest) by {
      assert ([x] + rest)[1..] == rest;
    }
    assert ([Capitalized(x)] + CapitalizeAll(rest))[1..] == CapitalizeAll(rest);
  }

  /** Some position at or after `from` holds the first '_' of the field. */
  lemma {:induction false} FirstUnderscore(field: string, from: nat)
    requires from <= |field| && '_' in field[from..]
    requires forall j :: 0 <= j < from ==> field[j] != '_'
    ensures exists k :: 0 <= k < |field| && field[k] == '_' && forall j :: 0 <= j < k ==> field[j] != '_'
    decreases |field| - from
  {
    if field[from] != '_' {
      assert field[from..] == [field[from]] + field[from + 1..];
      FirstUnderscore(field, from + 1);
    }
  }

  /** The message an entry contributes: `non_field_errors` its first error, any other
      unreserved field "Label: first error", and a reserved key nothing. */
  function EntryMessage(entry: (string, Value), show: Value -> string): Option<string> {
    if entry.0 == "non_field_errors" then Some(ElementText(FirstError(entry.1), show))
    else if Reserved(entry.0) then None
    else Some(Label(entry.0) + ": " + JsString(FirstError(entry.1), show))
  }

  function EntryMessages(show: Value -> string): ((string, Value)) -> Option<string> {
    e => EntryMessage(e, show)
  }

  /** The messages of a validation error, one per unreserved entry, in entry order. */
  function FieldMessages(entries: seq<(string, Value)>, show: Value -> string): (r: seq<string>)
    ensures |r| <= |entries|
    ensures forall i :: 0 <= i < |entries| && !Reserved(entries[i].0) && entries[i].0 != "non_field_errors"
              ==> Label(entries[i].0) + ": " + JsString(FirstError(entries[i].1), show) in r
    ensures forall i :: 0 <= i < |entries| && entries[i].0 == "non_field_errors"
              ==> ElementText(FirstError(entries[i].1), show) in r
  {
    var r := KeepSome(entries, EntryMessages(show));
    assert forall i :: 0 <= i < |entries| && !Reserved(entries[i].0)
             ==> EntryMessages(show)(entries[i]).Some?;
    r
  }

  /** A validation error always has a message: its detecting entry contributes one. */
  lemma ValidationErrorHasMessages(entries: seq<(string, Value)>, show: Value -> string)
    requires IsValidationError(entries)
    ensures |FieldMessages(entries, show)| > 0
  {
    var i :| 0 <= i < |entries| && !Reserved(entries[i].0) && (entries[i].1.Arr? || entries[i].1.Str?);
    if entries[i].0 == "non_field_errors" {
      assert ElementText(FirstError(entries[i].1), show) in FieldMessages(entries, show);
    } else {
      assert Label(entries[i].0) + ": " + JsString(FirstError(entries[i].1), show) in FieldMessages(entries, show);
    }
  }

  /** The error-type, instructions, job id and status fields, copied onto the error when set. */
  predicate Carried(key: string) {
    key == "error_type" || key == "instructions" || key == "job_id" || key == "status"
  }

  function CarriedFields(data: Value): (r: map<string, Value>)
    ensures forall k :: k in r <==> Carried(k) && JsTruthy(Get(data, k))
    ensures forall k :: k in r ==> r[k] == Get(data, k)
  {
    map k | k in {"error_type", "instructions", "job_id", "status"} && JsTruthy(Get(data, k)) :: Get(data, k)
  }

  /** The error thrown for a failed response: the base message, replaced by the field messages
      joined with ". " when the body is a validation error, with the response attached. */
  function ErrorFor(response: Response, show: Value -> string): (e: ApiError)
    ensures e.response == Some(ErrorResponse(response.status, response.statusText, ErrorData(response.payload),
                                             CarriedFields(ErrorData(response.payload))))
    ensures !IsValidationError(Entries(response.payload)) ==>
              e.message == BaseMessage(ErrorData(response.payload), response.statusText, show)
    ensures IsValidationError(Entries(response.payload)) ==>
              e.message == Join(FieldMessages(Entries(response.payload), show), ". ")
  {
    var data := ErrorData(response.payload);
    var entries := Entries(response.payload);
    var messages := FieldMessages(entries, show);
    var message :=
      if IsValidationError(entries) && |messages| > 0 then Join(messages, ". ")
      else BaseMessage(data, response.statusText, show);
    assert IsValidationError(entries) ==> |messages| > 0 by {
      if IsValidationError(entries) {
        ValidationErrorHasMessages(entries, show);
      }
    }
    ApiError(message, Some(ErrorResponse(response.status, response.statusText, data, CarriedFields(data))))
  }

  /** A single field error reads "Label: message"; a lone `non_field_errors` entry is shown
      without a label. */
  lemma SingleFieldMessage(field: string, message: string, show: Value -> string)
    requires !Reserved(field) && field != "non_field_errors"
    ensures ErrorFor(Response(400, "Bad Request", true, Fields([(field, Arr([Str(message)]))])), show).message
            == Label(field) + ": " + message
  {
    var entries := [(field, Arr([Str(message)]))];
    assert IsValidationError(entries) by {
      assert !Reserved(entries[0].0) && entries[0].1.Arr?;
    }
    assert KeepSome(entries, EntryMessages(show)) == [Label(field) + ": " + message] by {
      assert entries[..0] == [];
    }
  }

  // ---------------------------------------------------------------------------------------
  // Endpoint reshaping

  /** The fields `updatePortfolio` may send. */
  const UpdatableFields: set<string> := {
    "title", "template", "template_type", "custom_settings", "is_published", "seo_title",
    "seo_description", "seo_keywords", "meta_keywords", "meta_description", "pages",
    "navigation_enabled", "interactive_elements"}

  /** `updatePortfolio`'s body: the whitelisted fields the data sets to something other than
      `undefined`; no data sends {}. */
  function PortfolioUpdate(data: Option<map<string, Value>>): (r: map<string, Value>)
    ensures forall k :: k in r <==> k in UpdatableFields && data.Some? && k in data.value && data.value[k] != Undefined
    ensures forall k :: k in r ==> r[k] == data.value[k]
  {
    match data
    case None => map[]
    case Some(d) => map k | k in d && k in UpdatableFields && d[k] != Undefined :: d[k]
  }

  /** Whitelisting what was already whitelisted changes nothing. */
  lemma PortfolioUpdateIdempotent(data: Option<map<string, Value>>)
    ensures PortfolioUpdate(Some(PortfolioUpdate(data))) == PortfolioUpdate(data)
  {
  }

  /** Read-only fields such as the id, slug, owner and components are never sent. */
  lemma ReadOnlyFieldsNeverSent(data: Option<map<string, Value>>)
    ensures "id" !in PortfolioUpdate(data) && "slug" !in PortfolioUpdate(data)
            && "user" !in PortfolioUpdate(data) && "components" !in PortfolioUpdate(data)
  {
  }

  /** The list endpoints: an array as it is, else `response.results || []`. */
  function ListOf(response: Value): (r: Value)
    ensures response.Arr? ==> r == response
    ensures !response.Arr? && !JsTruthy(Get(response, "results")) ==> r == Arr([])
    ensures !response.Arr? && JsTruthy(Get(response, "results")) ==> r == Get(response, "results")
  {
    if response.Arr? then response else JsOr(Get(response, "results"), Arr([]))
  }

  /** A paginated page and the bare array of its results give the same list. */
  lemma PaginatedAndBareAgree(page: map<string, Value>, items: seq<Value>)
    requires "results" in page && page["results"] == Arr(items)
    ensures ListOf(Obj(page)) == ListOf(Arr(items))
  {
  }

  /** Listing a list again changes nothing. */
  lemma ListOfIdempotent(response: Value)
    requires ListOf(response).Arr?
    ensures ListOf(ListOf(response)) == ListOf(response)
  {
  }

  /** `getCurrentUser`: a response with a truthy `user` as it is, anything else wrapped as
      `{user: response}`. */
  function CurrentUser(response: Value): (r: Value)
    ensures JsTruthy(Get(response, "user")) ==> r == response
    ensures !JsTruthy(Get(response, "user")) ==> Get(r, "user") == response && r.Obj? && r.fields.Keys == {"user"}
  {
    if JsTruthy(Get(response, "user")) then response else Obj(map["user" := response])
  }

  /** Wrapping a truthy response is idempotent: the wrapped user is found again. */
  lemma CurrentUserIdempotent(response: Value)
    requires JsTruthy(response)
    ensures CurrentUser(CurrentUser(response)) == CurrentUser(response)
    ensures JsTruthy(Get(CurrentUser(response), "user"))
  {
  }
}
