# aifolio core, modelled in Dafny

aifolio turns a resume into a portfolio website. A Django back end stores users, portfolios and
their ordered components, projects and blog posts. It parses uploaded resumes and asks a
generative-AI service for bios, descriptions, skills, SEO advice and improvement suggestions. When
no AI client is configured it falls back to fixed placeholder text. A React/TypeScript front end
maps parsed resume data onto component content, builds and reorders portfolios, and renders them
through five template types.

This project models the rules of that core as pure Dafny functions over immutable values and
proves what they promise:

- Back end:
  - the slug loops of `Portfolio.save`, `Project.save` and `BlogPost.save`;
  - the component-order assignment and its uniqueness constraint;
  - registration and login checks, and resume upload validation;
  - the resume-parsing status machine and text extraction dispatch;
  - the AI client's model choice, quota classification and bounded retry loop;
  - the placeholder generators for content, bios, skills, keywords, SEO and suggestions;
  - the export views' availability check and error messages.
- Front end:
  - the API client's URL building, token refresh and error messages;
  - the resume-to-component field mapper with its dotted-path writes;
  - the portfolio builder's component list, and the pages' searches, filters and save checks;
  - the template selection, styling and renderer normalisation;
  - the galleries, carousel and navigation of the rendered templates.

Anything outside the program is a parameter of the functions that need it. That covers the AI
provider, the clock, the JSON decoder, the database lookups, `slugify`, the URL parser and the
rendering of values as text. The model constrains only what the program does with their answers.
Python dicts and JavaScript objects are one `Json.Value` type. JavaScript's and Python's
truthiness, `||` and `or` are defined once each in `Json`.

## Model

| member | source | states |
|---|---|---|
| AccountSerializers.ValidateRegistration | backend/accounts/serializers.py:52-63 | accepted exactly when the email is valid, both passwords have at least six characters and they are equal; a short password is reported under `password`; the mismatch error arises exactly when the fields are valid but the passwords differ |
| AccountSerializers.CreateAccount | backend/accounts/serializers.py:65-90 | the user is created with the email as username and the password passed apart; the bio is stored only when non-empty, otherwise the signal's profile (or a fresh one) is left as it is |
| AccountSerializers.UsersWithEmail | backend/accounts/serializers.py:107 | exactly the users registered under the email |
| AccountSerializers.Login | backend/accounts/serializers.py:100-121 | a missing email or password is refused first; an unknown email gives "Invalid email or password" and several users with it the multiple-users error; for the single user with that email, `authenticate` rejecting gives "Invalid email or password", accepting an active user logs them in, and accepting an inactive one gives the disabled error |
| AccountSerializers.LoginDoesNotRevealEmails | backend/accounts/serializers.py:106-113 | an unknown email and a wrong password for a known email give the same error |
| AiViews.FileTypeOf | backend/ai_services/views.py:40-44 | the lower-cased name ending in `.pdf` gives 'pdf'; otherwise an ending of `.docx` or `.doc` gives 'docx'; any other name gives none; every type given has a text extractor |
| AiViews.RowsOf | backend/ai_services/views.py:72-78 | the skill loop creates one row per entry, in order, with `name` and the defaults 'technical' and 0.5, and stops at the first entry that raises (not a dict, no `name`, or a name already stored, which breaks the uniqueness of a name per resume in backend/resumes/models.py:80), keeping the rows before it; it completes exactly when every entry is a dict with a `name` and the names are distinct |
| AiViews.SkillRows | backend/ai_services/views.py:71-78 | a list of named skills with distinct names is stored in full, one row per entry; any other list stops with an error after a proper prefix of its rows; an empty string or dict stores nothing, any other non-list raises |
| AiViews.ParseResume | backend/ai_services/views.py:15-103 | a falsy id gives 400; an id that `int()` cannot convert escapes the view as the framework's 500; a converted id naming no upload of the user gives 404; in all three nothing is stored; no other upload changes; a 200 reply leaves the named upload 'completed' and the view's own 500 reply leaves it 'failed' |
| AiViews.IdLookup | backend/ai_services/views.py:27 | the id is converted as `int()` does before the primary-key lookup: an integer as itself, a bool as 1 or 0, a float truncated toward zero, a string as its integer text, and a list, dict or None not at all |
| AiViews.IntOfText | backend/ai_services/views.py:27 | a string of digits reads as its decimal value; a blank string does not convert |
| AiViews.ConvertedIdsFindSameUpload | backend/ai_services/views.py:26-32 | an id sent as its decimal text, as a float, or (for 1) as `true` gives exactly the reply and the stored state of the numeric id |
| AiViews.WordIdIsServerError | backend/ai_services/views.py:26-32 | a word id raises a `ValueError` that the `DoesNotExist` handler does not catch: a 500 with nothing changed, not a 404 |
| AiViews.UnsupportedFileStaysProcessing | backend/ai_services/views.py:34-49 | a file without a known suffix gets a 400 reply and the upload stays 'processing' |
| AiViews.ParseReplacesSkills | backend/ai_services/views.py:55-78 | a successful parse stores the new raw text and structured data and replaces every earlier skill row by the rows of the newly extracted skills, whose names are distinct |
| AiViews.CheckRequired | backend/ai_services/views.py:112-117 | each endpoint answers 400 with "<field> is required" exactly when its required field is missing or falsy (also lines 129-134, 149-154, 168-173, 192-197) |
| AiViews.SeoContent | backend/ai_services/views.py:209-229 | the analysed title is the SEO title or else the portfolio title; description and keywords are the SEO fields; the content text is the portfolio title followed by `str(content)` of each visible component in order, joined by single spaces; image and link counts are zero |
| AiViews.SkillFailureKeepsPartialSave | backend/ai_services/views.py:50-103 | a skill entry that raises gives 500 and a 'failed' upload whose stored data is nevertheless the new raw text and structured data with only the rows created before the failing entry |
| AiViews.DuplicateSkillNameFails | backend/ai_services/views.py:72-78 | two extracted skills with the same name make the request fail with 500 |
| AiViews.VisibleTexts | backend/ai_services/views.py:225-228 | exactly the `str(content)` of the visible components, in their order |
| AiViews.HiddenComponentsIgnored | backend/ai_services/views.py:225-229 | hidden components do not change the analysed content text |
| ApiClient.BaseUrl | src/lib/api.ts:6 | the configured base URL when one is set, else a non-empty default |
| ApiClient.JoinUrl | src/lib/api.ts:100-102 | an endpoint starting with "http" is used as it is; any other is appended to the base URL after exactly one '/' |
| ApiClient.JoinUrlSlashOptional | src/lib/api.ts:100-102 | a relative endpoint gives the same URL with or without its leading '/' |
| ApiClient.Rethrown | src/lib/api.ts:214-222 | an error whose message mentions "CORS" is replaced by the fixed CORS message without response details; any other error is rethrown unchanged |
| ApiClient.FirstToken | src/lib/api.ts:88-97 | the first fetch carries a token only for an authenticated request and only a usable one: the stored token, else the refreshed one |
| ApiClient.Request | src/lib/api.ts:75-203 | one or two fetches, never an unusable token; an unauthenticated request sends no token and never refreshes; the retry happens exactly after a 401 on an authenticated request when the refresh yields a token, and is sent with that token; the tokens are cleared exactly when that refresh fails, and the request then fails with "Authentication failed"; otherwise a failed first response throws its `ErrorFor` error (the CORS message if that mentions CORS), and a successful one yields its parsed body when JSON is declared and {} when not; after a retry, a failed response throws "API request failed: <status text>" and a successful one yields its parsed body |
| ApiClient.AtMostOneRetry | src/lib/api.ts:111-130 | a request is sent once, or twice when the first answer is 401 and the retry carries a fresh usable token |
| ApiClient.EmptyResponseIsEmptyObject | src/lib/api.ts:198-203 | a successful response without a JSON content type yields `{}` |
| ApiClient.Upload | src/lib/api.ts:289-328 | an upload is sent once with the first token, never retried and never clears tokens; a failed response throws the body's `error`, else `detail`, else the status text; a successful one yields its parsed body |
| ApiClient.BaseMessage | src/lib/api.ts:136 | the message is the body's truthy `error`, else its truthy `detail`, else the status text |
| ApiClient.Entries | src/lib/api.ts:166 | an object body's keys come in written order with their values |
| ApiClient.LabelPointwise | src/lib/api.ts:181-185 | the label of a field name keeps its length: each '_' becomes a space and each word's first letter is upper-cased |
| ApiClient.LabelAtSeparator | src/lib/api.ts:181-185 | the label of "x_y" is the capitalised first word, a space, and the label of the rest |
| ApiClient.FieldMessages | src/lib/api.ts:173-188 | one message per unreserved field, in key order: "Label: first error" for a field, the first error alone for `non_field_errors`; reserved keys give none |
| ApiClient.ValidationErrorHasMessages | src/lib/api.ts:166-191 | a body that looks like a validation error always yields at least one field message |
| ApiClient.CarriedFields | src/lib/api.ts:146-158 | exactly the truthy `error_type`, `instructions`, `job_id` and `status` fields are copied onto the error, with their values |
| ApiClient.ErrorFor | src/lib/api.ts:132-195 | the thrown error carries the status, status text and body; its message is the joined field messages for a validation error and the `error`/`detail`/status-text message otherwise |
| ApiClient.SingleFieldMessage | src/lib/api.ts:173-191 | a 400 body with one field and one message reads "Field Label: message" |
| ApiClient.PortfolioUpdate | src/lib/api.ts:597-610 | exactly the allowed fields that are present and not `undefined` are sent, with their values |
| ApiClient.PortfolioUpdateIdempotent | src/lib/api.ts:597-610 | filtering an already filtered update changes nothing |
| ApiClient.ReadOnlyFieldsNeverSent | src/lib/api.ts:597-610 | `id`, `slug`, `user` and `components` are never sent |
| ApiClient.ListOf | src/lib/api.ts:454 | an array is returned as it is; otherwise the truthy `results`, else `[]` |
| ApiClient.PaginatedAndBareAgree | src/lib/api.ts:454 | a paginated page and the bare list of its results give the same list |
| ApiClient.ListOfIdempotent | src/lib/api.ts:454 | unwrapping a list twice changes nothing |
| ApiClient.CurrentUser | src/lib/api.ts:370-374 | a response with a truthy `user` is returned as it is; any other is wrapped as `{user: response}` |
| ApiClient.CurrentUserIdempotent | src/lib/api.ts:370-374 | wrapping is idempotent and always yields a truthy `user` |
| BlogModels.StampPublished | backend/blogs/models.py:75-77 | an existing date is kept; a published post without one gets the save time; an unpublished post without one stays undated |
| BlogModels.SavePost | backend/blogs/models.py:66-78 | only slug and date change; a given slug is kept; a blank one becomes the first of "base", "base-1", "base-2", … not used by the author's other posts |
| BlogModels.DateIsFirstPublishedSave | backend/blogs/models.py:75-77 | over any sequence of saves the date is set exactly when some save saw the post published, and it is the time of the first such save |
| BlogModels.PostBeforeIsTotalPreorder | backend/blogs/models.py:61 | the listing order (newer publication date, then newer creation) is total and transitive |
| ComponentData.SkillEntryText | src/utils/componentDataValidator.ts:34-38 | each skill entry becomes trimmed text |
| ComponentData.SkillEntryTexts | src/utils/componentDataValidator.ts:33-38 | one text per entry, in order |
| ComponentData.NormalizeSkills | src/utils/componentDataValidator.ts:29-50 | the names are non-empty and trimmed; a falsy value or one that is neither a list nor a string gives none; pieces of a string contain no comma; a list gives at most one name per entry |
| ComponentData.StringSkillPieces | src/utils/componentDataValidator.ts:42-47 | the pieces of a comma-separated string are trimmed and contain no comma |
| ComponentData.SkillsAgreeWithResumeMapper | src/utils/componentDataValidator.ts:29-50 | on a string or a list of strings this normalisation agrees with the resume mapper's skill normalisation |
| ComponentData.NamedSkillsGiveNames | src/utils/componentDataValidator.ts:36 | a list of `{name}` objects with clean names gives those names back |
| ComponentData.NamedEntryText | src/utils/componentDataValidator.ts:36 | an object with a non-empty name gives its trimmed name |
| ComponentData.NormalizeSkillsIdempotent | src/utils/componentDataValidator.ts:29-50 | normalising the normalised names changes nothing |
| ComponentData.CleanSkillsFixed | src/utils/componentDataValidator.ts:29-40 | a list of clean, non-empty names is left as it is |
| ComponentData.StringEntryText | src/utils/componentDataValidator.ts:35 | a string entry becomes its trimmed text |
| ComponentData.ShortDescription | src/utils/componentDataValidator.ts:73-77 | the given short description when truthy; none exactly when it and the description are both falsy |
| ComponentData.ShortDescriptionOfText | src/utils/componentDataValidator.ts:75-76 | from a description: the text itself up to 200 characters, else its first 200 characters followed by "..." |
| ComponentData.ValidateProject | src/utils/componentDataValidator.ts:55-87 | a project validates exactly when it is an object with a truthy id and title; it keeps the numeric id, the title text and the short description rule |
| ComponentData.ProjectLinksFallBack | src/utils/componentDataValidator.ts:79-80 | the GitHub link falls back from `github_url` to `github` to null, and the live link from `live_url` to `website` to `live` to null |
| ComponentData.ValidateProjects | src/utils/componentDataValidator.ts:92-109 | a non-list gives none; a list gives the projects that validate, in order |
| ComponentData.ValidateProjectsExactly | src/utils/componentDataValidator.ts:92-109 | each result is the validation of some entry, every valid entry is kept, and validation distributes over concatenation |
| ComponentData.ValidateBlogPost | src/utils/componentDataValidator.ts:114-141 | a post validates exactly when it is an object with a truthy id and title; the excerpt is present exactly when truthy; `published` is the truthiness of the field |
| ComponentData.BlogPostFieldsFallBack | src/utils/componentDataValidator.ts:132-137 | the content falls back from `content_markdown` to `content`, the image from `featured_image` to `image` to null, and the date from `published_date` to `created_at` |
| ComponentData.ValidateBlogPosts | src/utils/componentDataValidator.ts:146-163 | a non-list gives none; a list gives the posts that validate, in order |
| ComponentData.ValidateBlogPostsExactly | src/utils/componentDataValidator.ts:146-163 | each result is the validation of some entry, every valid entry is kept, and validation distributes over concatenation |
| ComponentData.ValidateUrl | src/utils/componentDataValidator.ts:168-186 | the result always has an http(s) scheme and is trimmed; none exactly for a non-string, a blank text, or a text with a scheme the URL parser refuses; a text with a scheme is returned trimmed |
| ComponentData.WithSchemeTrimmed | src/utils/componentDataValidator.ts:176-178 | prefixing "https://" to a trimmed text gives a trimmed text with a scheme |
| ComponentData.ValidateUrlIdempotent | src/utils/componentDataValidator.ts:168-186 | validating a validated URL gives it back |
| ComponentData.EmailFromAtoms | src/utils/componentDataValidator.ts:198 | every text of the form run@run.run (runs without white space or '@') has the email shape |
| ComponentData.EmailToAtoms | src/utils/componentDataValidator.ts:198 | every text with the email shape splits as run@run.run |
| ComponentData.ValidateEmail | src/utils/componentDataValidator.ts:191-203 | an email is accepted exactly when it is a string whose trimmed text has the email shape, and the trimmed text is returned |
| ComponentData.ValidateEmailIdempotent | src/utils/componentDataValidator.ts:191-203 | validating a validated email gives it back |
| ComponentData.SocialLinks | src/utils/componentDataValidator.ts:240-244 | the social object always has exactly the keys linkedin, github and website |
| ComponentData.NormalizeComponentContent | src/utils/componentDataValidator.ts:209-257 | a non-object gives `{}`; an unknown type gives its content or `{}`; a known type gives a fresh object |
| ComponentData.ContactAlwaysHasSocial | src/utils/componentDataValidator.ts:236-245 | a contact section always gets a social object with exactly the three link keys |
| ContentGenerator.Expertise | backend/ai_services/content_generator.py:30 | no skills gives "various technologies"; a list gives its first five entries joined by ", " |
| ContentGenerator.ExpertiseNamesFirstFive | backend/ai_services/content_generator.py:30 | each of the first five skills appears in the expertise text |
| ContentGenerator.PlaceholderBio | backend/ai_services/content_generator.py:18-33 | the placeholder bio has the fixed opening and closing lines, and the default summary when none is given |
| ContentGenerator.Bio | backend/ai_services/content_generator.py:8-51 | without a configured client the placeholder bio; with one, the model's reply |
| ContentGenerator.ProjectDescription | backend/ai_services/content_generator.py:54-94 | with a client the reply; without one a placeholder that starts with the title, names the first three technologies joined by ", " (or "cutting-edge tools" when there are none) and ends with the first three skills joined by ", " (or "various domains") |
| ContentGenerator.ShortDescription | backend/ai_services/content_generator.py:97-135 | without a client "<title> - A project built with …"; with one the reply cut to 300 characters, or the fallback sentence when the reply is empty |
| ContentGenerator.ProjectContent | backend/ai_services/content_generator.py:138-166 | falsy technologies and skills become empty lists; the short description is generated from the full one |
| ContentGenerator.ProjectContentNoTechnologies | backend/ai_services/content_generator.py:128-129 | without a client and without technologies the short description mentions "modern technologies" |
| ContentGenerator.BlogOutline | backend/ai_services/content_generator.py:169-222 | the outline always has sections; the reply is used exactly when it is a dict with 'sections'; otherwise "Exploring <topic>" with three placeholder or four fallback sections |
| ContentGenerator.SectionsMarkdownSnoc | backend/ai_services/content_generator.py:245-247 | rendering one more section appends its Markdown |
| ContentGenerator.SectionParts | backend/ai_services/content_generator.py:245-247 | one Markdown piece per section, in order |
| ContentGenerator.SectionAt | backend/ai_services/content_generator.py:245-247 | each section's Markdown occurs right after the sections before it |
| ContentGenerator.RenderOutline | backend/ai_services/content_generator.py:244-248 | the loop builds the heading line followed by every section's Markdown in order |
| ContentGenerator.BlogContent | backend/ai_services/content_generator.py:225-260 | a truthy dict outline whose sections are not a list of dicts (nor an empty string or dict) raises, with or without a client, because both paths walk the sections with `.get`; otherwise with a client the reply; without one a truthy dict outline is rendered with its title (default the title, else the topic); otherwise a one-line post about the topic |
| ContentGenerator.NonDictSectionFails | backend/ai_services/content_generator.py:243-247 | a section that is not a dict makes writing the post raise, with or without a client |
| ContentGenerator.Truncate | backend/ai_services/content_generator.py:314 | a text within the limit is kept; a longer one is cut to a non-negative limit and gets "..."; a negative limit drops that many characters from the end, and "..." is always added; only a non-negative limit bounds the length by the limit plus 3 |
| ContentGenerator.PyPrefix | backend/ai_services/content_generator.py:314 | Python's `s[:n]` is a prefix of `s`, of length `min(n, len(s))` for `n >= 0` and `max(0, len(s) + n)` otherwise |
| ContentGenerator.UnformatRemoves | backend/ai_services/content_generator.py:313 | removing `**`, then `*`, then backticks deletes exactly the asterisks and backticks |
| ContentGenerator.FirstParagraph | backend/ai_services/content_generator.py:309-311 | the first paragraph that is not blank after stripping, or none when all are blank |
| ContentGenerator.PlainExcerpt | backend/ai_services/content_generator.py:307-315 | with a non-negative limit the excerpt never exceeds the limit plus "..."; with a negative one it always ends in "..." |
| ContentGenerator.BlogExcerpt | backend/ai_services/content_generator.py:294-344 | with a non-empty reply: the reply without emphasis, stripped and truncated; otherwise the plain first-paragraph excerpt; any integer limit is taken, and only a non-negative one bounds the length by the limit plus 3 |
| ContentGenerator.PlainExcerptOfShortParagraph | backend/ai_services/content_generator.py:307-314 | a short single paragraph without markers or surrounding space is its own excerpt |
| ExportViews.ClassifyRuntime | backend/export/views.py:62-115 | a test-PDF failure mentioning cairo, pango or gobject is a platform dependency error; otherwise one mentioning font or ttf is a font error; otherwise a runtime error |
| ExportViews.CheckAvailability | backend/export/views.py:27-120 | a cached verdict is returned with its message and no error type, leaving the cache as it is; otherwise the library is available exactly when the test PDF is written, an error type is given exactly when it is not, and the verdict is cached |
| ExportViews.SecondCheckRepeatsFirst | backend/export/views.py:35-36 | a second check repeats the first verdict and message, but without an error type, and changes nothing |
| ExportViews.ClassifyPdfError | backend/export/views.py:362-385 | image or URL problems are recognised first, then CSS or stylesheet problems; a font classification needs "font" in the message |
| ExportViews.ByType | backend/export/views.py:176-181 | a type is filed exactly when some component has it as a truthy type |
| ExportViews.ByTypeKeepsLast | backend/export/views.py:178-181 | each type is filed with the last component of that type |
| ExportViews.FlattenSocial | backend/export/views.py:191-204 | a dict keeps all its keys and every truthy value; a social link is copied up when the top-level one is falsy and the nested one truthy; a truthy non-dict `social` makes the export fail exactly when one of the top-level github, linkedin and website links is falsy, and otherwise leaves the content as it is |
| ExportViews.PortfolioContext | backend/export/views.py:167-217 | each slot holds the last component of its type or null; a contact section without truthy content is passed through as it is, and one with truthy content gets that content flattened; the context fails exactly when that flattening fails |
| ExportViews.Download | backend/export/views.py:521-546 | a download is served exactly for a completed job whose file path is set and exists; "not ready" exactly when the job is not completed or has no path; the content type follows the export type |
| ExportViews.DownloadNameShape | backend/export/views.py:534-538 | the file name has no spaces and ends in "_portfolio.pdf" or "_portfolio.zip" by export type |
| ExportViews.ReplaceSpaceRemovesSpaces | backend/export/views.py:534 | replacing spaces by underscores removes every space and keeps the length |
| ExportViews.JobDetailExtras | backend/export/views.py:483-518 | the error type and instructions are added exactly for a failed PDF job whose message mentions WeasyPrint while the check reports the library unavailable; other jobs leave the check's cache untouched |
| ExportViews.JobDetailAfterExportHasNoErrorType | backend/export/views.py:35-36 | once an export has cached the failure, the job detail adds an empty error type |
| FieldPaths.ChildObject | src/utils/resumeFieldMapper.ts:259-262 | the cursor moves into the existing object under the key, or into a fresh `{}` when the value there is missing, falsy, an array or not an object |
| FieldPaths.SetPath | src/utils/resumeFieldMapper.ts:255-267 | writing along a dotted path into an object leaves an object (also lines 525-541) |
| FieldPaths.SetThenGet | src/utils/resumeFieldMapper.ts:255-267 | reading back along a path whose last key is non-empty gives the value written (also lines 525-541, where empty keys are skipped) |
| FieldPaths.SetPathFrame | src/utils/resumeFieldMapper.ts:255-267 | a write changes no top-level key other than the path's first (also lines 525-541) |
| FieldPaths.DeepWriteLeavesObject | src/utils/resumeFieldMapper.ts:259-262 | after a write through a nested path the first key holds an object |
| GeminiClient.UsableNames | backend/ai_services/gemini_client.py:36-42 | exactly the names of the listed models that support `generateContent`, each without its "models/" prefix, in listing order |
| GeminiClient.ExperimentalIsExp | backend/ai_services/gemini_client.py:52 | the 'experimental' test adds nothing to the 'exp' test |
| GeminiClient.ChooseModelSpec | backend/ai_services/gemini_client.py:44-61 | the choice is a usable name and exists exactly when one does; the first preferred model available wins, else the first non-experimental name, else the first name |
| GeminiClient.InitializeConfigured | backend/ai_services/gemini_client.py:66-94 | the client is configured exactly when the key is non-empty, the SDK accepts it, and a handle can be made for the selected model or, when none is selected, for some preferred model; the handle and the recorded name agree |
| GeminiClient.ClassifyError | backend/ai_services/gemini_client.py:101-147 | an error is a quota error exactly when its text contains an indicator (ignoring case); a non-quota error has no delay; a quota error has the delay found in the text, else 60 seconds |
| GeminiClient.ResourceExhaustedAnyCase | backend/ai_services/gemini_client.py:111-119 | "RESOURCE_EXHAUSTED" in any case is a quota error |
| GeminiClient.TryFallback | backend/ai_services/gemini_client.py:149-165 | the fallback is the first preferred model other than the current one whose handle can be made, and the client records its name; with none, nothing changes |
| GeminiClient.Backoff | backend/ai_services/gemini_client.py:250-257 | the sleep is the reported delay capped at 120 seconds; without a delay it is 60 seconds after the first attempt and 120 (the cap) after any later one |
| GeminiClient.Decide | backend/ai_services/gemini_client.py:228-270 | one attempt: its text when it returns; a non-quota error ends the loop; a quota error on the first attempt switches to the fallback when there is one, otherwise sleeps, for the backoff of the delay read from the message, while attempts remain and gives up after the last |
| GeminiClient.RetryLoop | backend/ai_services/gemini_client.py:226-272 | at most max_retries + 1 attempts, each decided as above on the current model; the loop stops at the first attempt that does not continue, never sleeps after its last attempt, and ends without a verdict only after a switch with a single attempt |
| GeminiClient.StartModel | backend/ai_services/gemini_client.py:200-217 | a configured client always has a start model; the default names use the client's own handle; any other name whose handle can be made is used as it is |
| GeminiClient.RunConfigured | backend/ai_services/gemini_client.py:196-272 | the loop runs from the start model with the fallback the client offers, and a switch records the fallback's name on the client |
| GeminiClient.GenerateText | backend/ai_services/gemini_client.py:167-272 | an unconfigured client gets the placeholder text and no attempt is made; otherwise the retry loop above, and the reply is the text, "[AI Error] …", the quota message after max_retries + 1 attempts, or the "Failed after" message |
| GeminiClient.StripFencesFenced | backend/ai_services/gemini_client.py:345-353 | a reply fenced as ```json … ``` gives back the JSON text it wraps |
| GeminiClient.StripFencesPlain | backend/ai_services/gemini_client.py:345-353 | an unfenced, stripped reply is left as it is |
| GeminiClient.BraceSpanSpec | backend/ai_services/gemini_client.py:360 | a span is found exactly when some '{' precedes some '}', and it runs from the first '{' to the last '}' |
| GeminiClient.JsonAttemptCases | backend/ai_services/gemini_client.py:343-365 | a reply that decodes after fence stripping is returned decoded; one that does not decode and has no brace span gives the parse-failure dict; an attempt raises only when the brace span also fails to decode |
| GeminiClient.GenerateJson | backend/ai_services/gemini_client.py:274-400 | an unconfigured client gets the placeholder dict; otherwise the same retry loop with the JSON prompt at temperature 0.3, replying with the decoded value, an error dict, or the quota dict |
| ImageUtils.ApiUrl | src/utils/imageUtils.ts:5 | the server address is the configured one when set, else a non-empty default |
| ImageUtils.GetImageUrl | src/utils/imageUtils.ts:10-23 | no URL exactly for a missing or empty path; an absolute http(s) URL is kept as it is; any other path becomes the server address, one '/', then the path |
| ImageUtils.LeadingSlashOptional | src/utils/imageUtils.ts:19 | a relative path resolves to the same URL with or without its leading '/' |
| ImageUtils.ResolvingIsIdempotent | src/utils/imageUtils.ts:10-23 | with an absolute server address, resolving an already resolved URL changes nothing |
| ImageUtils.GetImageWithFallback | src/utils/imageUtils.ts:41-48 | the result is never empty: the resolved URL when there is one, else a non-empty fallback, else the placeholder image |
| ImageGallery.Normalize | src/components/portfolio/ImageGallery.tsx:35-49 | a falsy entry or one that is neither a string nor an object with a non-empty string `url` is dropped; a string becomes an image labelled "Image n" by its position; a kept image always has an address |
| ImageGallery.ValidImages | src/components/portfolio/ImageGallery.tsx:34-50 | exactly the entries that normalise to an image survive, each as its normalised form, and never more images than entries |
| ImageGallery.Render | src/components/portfolio/ImageGallery.tsx:23-60 | "no images" exactly for a non-array or empty input, "no valid images" exactly when every entry is dropped, otherwise the valid images |
| ImageGallery.AllStringsShown | src/components/portfolio/ImageGallery.tsx:38-40 | a list of non-empty addresses is shown in full, in order, each labelled by its own position |
| ImageGallery.LabelsDistinct | src/components/portfolio/ImageGallery.tsx:39 | different positions get different default alt texts |
| Dashboard.FullName | src/pages/Dashboard.tsx:156-163 | with a first or last name (own or the profile's) the name is "first last" trimmed; otherwise the name is non-empty and holds no '@' |
| Dashboard.NameFromEmail | src/pages/Dashboard.tsx:162 | without names, an email "local@domain" gives exactly its local part |
| Dashboard.AccountAge | src/pages/Dashboard.tsx:165-183 | no join date gives N/A, 0 days "Today", fewer than 30 days a day count, fewer than 365 days whole 30-day months (1 to 12), else whole 365-day years |
| Dashboard.CountedReadsBack | src/pages/Dashboard.tsx:175-182 | an age text starts with the decimal count that reads back as the count, and the unit is plural exactly when the count is not one |
| Dashboard.BioPreview | src/pages/Dashboard.tsx:195-201 | no preview exactly without a bio; a bio of at most 150 characters, or any bio while expanded, in full; otherwise its first 150 characters followed by "..." |
| Dashboard.CountsPartition | src/pages/Dashboard.tsx:491-505 | the published and draft counters add up to the number of portfolios |
| FileUpload.LastPiece | src/components/FileUpload.tsx:32 | the piece after the last separator holds no separator |
| FileUpload.Extension | src/components/FileUpload.tsx:32 | the extension is '.' followed by text without a '.' |
| FileUpload.SplitEndsWith | src/components/FileUpload.tsx:32 | splitting at a separator ends with the text after its last occurrence |
| FileUpload.ExtensionOfDottedName | src/components/FileUpload.tsx:32 | a name "stem.ext" has extension "." followed by ext in lower case |
| FileUpload.ExtensionOfUndottedName | src/components/FileUpload.tsx:32 | a name without a dot counts as its own extension, so "pdf" is accepted as ".pdf" |
| FileUpload.ValidateFile | src/components/FileUpload.tsx:29-55 | a file is accepted exactly when its extension is listed and its size is at most the limit; an unlisted type is reported before the size |
| FileUpload.HandleFileSelect | src/components/FileUpload.tsx:57-66 | a valid file is handed on and shown with progress 0; an invalid one changes nothing |
| FileUpload.HandleDrop | src/components/FileUpload.tsx:82-96 | a drop on a disabled area or without files does nothing; otherwise only the first file is selected |
| FileUpload.SizeLimitIsInclusive | src/components/FileUpload.tsx:19-20 | with the defaults a ".pdf" of exactly 10 MiB is accepted and one byte more is too large |
| AuthPage.CheckSignUp | src/pages/Auth.tsx:52-77 | sign-up goes ahead exactly when the email is well formed, the password has at least six characters and the confirmation matches, the first failing check in that order being reported |
| AuthPage.CheckSignIn | src/pages/Auth.tsx:137-153 | sign-in goes ahead exactly when the email and password checks pass, the email being checked first |
| AuthPage.SignUpExtendsSignIn | src/pages/Auth.tsx:41-77 | with a matching confirmation sign-up checks exactly what sign-in checks |
| AuthPage.ErrorMessage | src/pages/Auth.tsx:99 | the shown message is never empty and is the server's own when it has one |
| AuthPage.ClassifyRegistrationError | src/pages/Auth.tsx:99-128 | "account exists" exactly when the lower-cased message mentions "already exists", "already registered" or both "email" and "exist"; otherwise a password problem when it says "password"; otherwise an email problem when it says "email" |
| AuthPage.ClassificationIgnoresCase | src/pages/Auth.tsx:102-116 | the classification does not depend on letter case |
| AuthPage.UnrelatedMessageIsGenericFailure | src/pages/Auth.tsx:99-128 | a message without any of the letters of the key words, the default message among them, is a generic failure |
| JsText.TitleSearch | src/pages/BlogPosts.tsx:216-219 | an item is listed exactly when its title or its second text contains the query, ignoring case; the posts page searches excerpts, the projects page (src/pages/Projects.tsx:359-362) descriptions |
| BlogPostsPage.SearchIdempotent | src/pages/BlogPosts.tsx:216-219 | searching the results again with the same query changes nothing |
| BlogPostsPage.Save | src/pages/BlogPosts.tsx:140-168 | a blank title is refused first, then blank content; a save otherwise sends the title and content as typed and the tag field split at commas and trimmed, no names for an empty field |
| BlogPostsPage.EditThenSaveKeepsPost | src/pages/BlogPosts.tsx:123-168 | opening a post whose tag names are plain and saving it unchanged sends back the post's own fields and tag names |
| ChooseTemplate.LoadTemplates | src/pages/ChooseTemplate.tsx:38-57 | a bare list is used as it is, a paginated answer gives its `results`, and a failure or a missing `results` gives no templates (also line 88) |
| ChooseTemplate.UniqueTypes | src/pages/ChooseTemplate.tsx:89 | the type buttons name each type of some template exactly once |
| ChooseTemplate.UniqueTypesFirstSeen | src/pages/ChooseTemplate.tsx:89 | the type buttons follow the order in which the types first appear |
| ChooseTemplate.FilteredTemplates | src/pages/ChooseTemplate.tsx:92-100 | a template is shown exactly when the filter is "all" or its type, and the query is empty or found ignoring case in its name, description or type |
| ChooseTemplate.EmptyQueryFoundAnyway | src/pages/ChooseTemplate.tsx:95 | the empty-query test only short-cuts a search that would succeed anyway |
| ChooseTemplate.InitialFiltersShowAll | src/pages/ChooseTemplate.tsx:31 | with the initial filter "all" and no query every template is shown, in order |
| ChooseTemplate.EveryTypeButtonShowsATemplate | src/pages/ChooseTemplate.tsx:89-100 | pressing any type button with an empty search shows at least one template |
| ChooseTemplate.HandleContinue | src/pages/ChooseTemplate.tsx:67-80 | "Continue" is refused exactly when nothing is selected, and otherwise opens the builder with the selected template |
| UploadResume.NewestFirst | src/pages/UploadResume.tsx:46-50 | the list is a permutation of the server's list ordered by upload time, newest first |
| UploadResume.NewestFirstIsStable | src/pages/UploadResume.tsx:46-50 | resumes uploaded at the same moment keep the server's order |
| UploadResume.LoadResumes | src/pages/UploadResume.tsx:36-74 | the page shows the sorted list; a selection keeps its id, being replaced by the listed resume with that id when there is one, and the generated bio is untouched |
| UploadResume.StatusBadge | src/pages/UploadResume.tsx:238-246 | a known status gets its own badge and any other status the pending badge |
| UploadResume.BadgeOfOwnStatus | src/pages/UploadResume.tsx:239-245 | every badge is the one shown for its own status name |
| UploadResume.MarkParsed | src/pages/UploadResume.tsx:146-149 | every resume with the parsed id becomes completed with the new data and every other resume is unchanged |
| UploadResume.ParseSucceeded | src/pages/UploadResume.tsx:132-155 | the new data (skills defaulting to none) is shown, the list is updated, and the parsed resume becomes the completed selection when it is listed |
| UploadResume.ParseKeepsIds | src/pages/UploadResume.tsx:146-149 | parsing keeps the list's ids in their order |
| UploadResume.DeleteSucceeded | src/pages/UploadResume.tsx:171-187 | the list is reloaded, and the selection, shown data and generated bio are cleared exactly when the deleted resume was selected |
| UploadResume.DeleteOtherKeepsSelection | src/pages/UploadResume.tsx:182-187 | deleting a resume other than the selected one keeps that selection |
| UploadResume.GroupsFor | src/pages/UploadResume.tsx:557-563 | every shown group is one of the categories, is non-empty and holds exactly that category's skills in extraction order |
| UploadResume.FilterNonEmptyIff | src/pages/UploadResume.tsx:559-562 | a category has a group exactly when some skill is in it |
| UploadResume.GroupOrder | src/pages/UploadResume.tsx:557-563 | the groups are exactly the occupied categories, in the fixed category order |
| UploadResume.CategorisedSkills | src/pages/UploadResume.tsx:551-563 | no section exactly when there are no skills; otherwise the groups of the occupied categories among technical, framework, tool, soft, language and other |
| UploadResume.ShownSkills | src/pages/UploadResume.tsx:557-563 | a skill is shown exactly when its category is one of the six |
| ProjectsPage.MockProjects | src/pages/Projects.tsx:49-172 | there are six demo projects, with ids -1 to -6 |
| ProjectsPage.LoadProjects | src/pages/Projects.tsx:206-218 | a non-empty list from the server is shown as it is; anything else, a failure included, shows the demo projects, so the page is never empty |
| ProjectsPage.EmptySearchKeepsAll | src/pages/Projects.tsx:359-362 | an empty search lists every project |
| ProjectsPage.ModifyGuard | src/pages/Projects.tsx:254-263 | editing or deleting is refused exactly for negative (demo) ids (also lines 330-339) |
| ProjectsPage.DemoProjectsAreReadOnly | src/pages/Projects.tsx:206-218 | when the demo projects are shown, none of them can be edited or deleted |
| ProjectsPage.NewForm | src/pages/Projects.tsx:236-252 | a new project starts empty, ordered after the current projects |
| ProjectsPage.Save | src/pages/Projects.tsx:282-300 | a blank title is refused; otherwise the title and order are sent as typed and the tag field split at commas and trimmed, no names for an empty field |
| ProjectsPage.EditThenSaveKeepsTags | src/pages/Projects.tsx:254-300 | opening a project whose tag names are plain and saving it unchanged sends back its own title, description, tag names and order |
| PortfolioBuilder.ParseBuilderType | src/pages/PortfolioBuilder.tsx:103-180 | a name denotes a builder type exactly when it is that type's value in the component-type list |
| PortfolioBuilder.MaxOrder | src/pages/PortfolioBuilder.tsx:483-485 | the largest order is at least every component's order and is some component's order |
| PortfolioBuilder.NextOrder | src/pages/PortfolioBuilder.tsx:483-487 | the next order exceeds every existing order, is 0 for an empty list and otherwise one more than some existing order |
| PortfolioBuilder.DefaultContent | src/pages/PortfolioBuilder.tsx:529-581 | the default content is always an object, empty exactly for an unknown component type |
| PortfolioBuilder.Defaults | src/pages/PortfolioBuilder.tsx:530-579 | every builder type starts with some content |
| PortfolioBuilder.CreateIn | src/pages/PortfolioBuilder.tsx:482-526 | the creation request carries the next order, visibility and default content; on success the component with its new id is appended, on failure the list is unchanged |
| PortfolioBuilder.AddComponentAsWritten | src/pages/PortfolioBuilder.tsx:438-526 | an unsaved portfolio without a title refuses the add; any creation request names the portfolio id read before the auto-save |
| PortfolioBuilder.AddAsWrittenLosesSavedId | src/pages/PortfolioBuilder.tsx:451-498 | on a new portfolio the auto-save succeeds and records its id, yet the component is created under no portfolio |
| PortfolioBuilder.AddComponent | src/pages/PortfolioBuilder.tsx:438-526 | an unsaved portfolio without a title refuses the add; a creation request names the portfolio the state holds and the new component; on an unsaved portfolio with a title the request names the id the save returned, and a failed save sends nothing; a saved portfolio's request names its id; the list is unchanged or gains exactly the new component |
| PortfolioBuilder.AddedComponentComesLast | src/pages/PortfolioBuilder.tsx:482-512 | a created component is appended after the unchanged list, visible, with its id and default content, ordered after every other component |
| PortfolioBuilder.Renumbered | src/pages/PortfolioBuilder.tsx:694-697 | after a drop every component's order is its position and nothing else changes |
| PortfolioBuilder.DragEnd | src/pages/PortfolioBuilder.tsx:686-698 | a drop without a target or onto itself changes nothing; otherwise the dragged component lands at the target and every order equals the position |
| PortfolioBuilder.DragEndPermutes | src/pages/PortfolioBuilder.tsx:686-698 | apart from orders a drop permutes the components, and dragging back restores the list |
| PortfolioBuilder.DeleteComponent | src/pages/PortfolioBuilder.tsx:653-684 | a failed server delete of a saved component changes nothing; otherwise exactly that component is removed and the editor closes exactly when it showed that component |
| PortfolioBuilder.DeleteRemovesOne | src/pages/PortfolioBuilder.tsx:653-676 | deleting removes exactly one occurrence of the component |
| PortfolioBuilder.ToggleVisibility | src/pages/PortfolioBuilder.tsx:764-775 | toggling flips only the chosen component's visibility |
| PortfolioBuilder.ToggleTwice | src/pages/PortfolioBuilder.tsx:764-775 | toggling twice restores the list |
| PortfolioBuilder.Replaced | src/pages/PortfolioBuilder.tsx:622-630 | every entry that is the same component (same truthy id, or both unsaved with the same type and order) is replaced and every other entry kept |
| PortfolioBuilder.UpdateComponent | src/pages/PortfolioBuilder.tsx:582-651 | nothing changes for an unsaved portfolio or a failed save; otherwise the saved component (with its new id when it had none) replaces its matching entries |
| PortfolioBuilder.ReplacedIdempotent | src/pages/PortfolioBuilder.tsx:622-630 | saving the same component twice has the effect of saving it once |
| PortfolioBuilder.UpdateKeepsOthers | src/pages/PortfolioBuilder.tsx:622-630 | saving a component leaves every entry with a different id unchanged |
| PortfolioBuilder.FirstSaveLeavesListUnchanged | src/pages/PortfolioBuilder.tsx:606-630 | a first save of an unsaved component whose new id no entry has leaves the list as it was |
| PortfolioBuilder.ComponentAction | src/pages/PortfolioBuilder.tsx:977-1001 | an add_/fill_ suggestion is unsupported exactly when the named type (after its alias) is not a builder type; fill_ opens an existing component of that type |
| PortfolioBuilder.SuggestionActionAsWritten | src/pages/PortfolioBuilder.tsx:964-1017 | as written the SEO and profile-photo hints are never given, and any action without an add_/fill_ prefix does nothing |
| PortfolioBuilder.AsWrittenRejectsSeoSuggestions | src/pages/PortfolioBuilder.tsx:977-1017 | as written "add_meta_description", "add_keywords" and "add_profile_photo" are reported as unsupported component types |
| PortfolioBuilder.AddActionRejected | src/pages/PortfolioBuilder.tsx:977-986 | an add_ action naming neither an alias nor a builder type is reported as unsupported |
| PortfolioBuilder.SuggestionAction | src/pages/PortfolioBuilder.tsx:1004-1017 | "add_meta_description" and "add_keywords" point to the SEO settings and "add_profile_photo" to the photo section |
| PortfolioBuilder.BackendSuggestionsSupported | src/pages/PortfolioBuilder.tsx:964-1017 | every action the improvement suggestions can carry has an effect in the builder (the actions of backend/ai_services/portfolio_content_generator.py:693-777) |
| PortfolioBuilder.AliasedActionSupported | src/pages/PortfolioBuilder.tsx:966-1001 | an add_/fill_ action whose key is an alias of a builder type is supported |
| PortfolioBuilder.MetaDescriptionRejected | src/pages/PortfolioBuilder.tsx:977-1001 | as written, applying the "add_meta_description" suggestion reports an unknown component type |
| PortfolioBuilder.KeywordsRejected | src/pages/PortfolioBuilder.tsx:977-1001 | as written, applying the "add_keywords" suggestion reports an unknown component type |
| PortfolioBuilder.ProfilePhotoRejected | src/pages/PortfolioBuilder.tsx:977-1001 | as written, applying the "add_profile_photo" suggestion reports an unknown component type |
| PortfolioBuilder.AddHeaderSupported | src/pages/PortfolioBuilder.tsx:977-1001 | "add_header" is carried out |
| PortfolioBuilder.AddAboutSupported | src/pages/PortfolioBuilder.tsx:977-1001 | "add_about" is carried out, through the about alias |
| PortfolioBuilder.AddContactSupported | src/pages/PortfolioBuilder.tsx:977-1001 | "add_contact" is carried out |
| PortfolioBuilder.FillAboutSupported | src/pages/PortfolioBuilder.tsx:977-1001 | "fill_about" is carried out |
| PortfolioBuilder.FillSkillsSupported | src/pages/PortfolioBuilder.tsx:977-1001 | "fill_skills" is carried out |
| PortfolioBuilder.FillProjectsSupported | src/pages/PortfolioBuilder.tsx:977-1001 | "fill_projects" is carried out |
| PortfolioInsights.LastField | backend/ai_services/portfolio_content_generator.py:25-33 | with no component of the wanted type the field keeps its default (the loop keeps the last match) |
| PortfolioInsights.KeywordCandidates | backend/ai_services/portfolio_content_generator.py:37-42 | the candidates are at most five title words and five skills followed by the template type, "portfolio" and "professional" |
| PortfolioInsights.LowerEach | backend/ai_services/portfolio_content_generator.py:41 | each skill is lower-cased in place |
| PortfolioInsights.FallbackKeywords | backend/ai_services/portfolio_content_generator.py:42-43 | at most ten distinct keywords, all candidates, and every candidate kept when there are at most ten distinct ones |
| PortfolioInsights.PortfolioKeywords | backend/ai_services/portfolio_content_generator.py:8-43 | without an AI client the keywords are at most ten, distinct, and include "portfolio" unless ten others fill the list |
| PortfolioInsights.MetaDescription | backend/ai_services/portfolio_content_generator.py:647-652 | the description is at most 160 characters, a prefix of "title - Professional portfolio" plus ". " and the bio's first 100 characters when there is a bio, and begins with the full title phrase when the title is short enough |
| PortfolioInsights.PortfolioMetaDescription | backend/ai_services/portfolio_content_generator.py:620-672 | the description never exceeds 160 characters, and with an AI client it is a prefix of a non-empty reply |
| PortfolioInsights.ActionsOf | backend/ai_services/portfolio_content_generator.py:675-779 | the actions of a suggestion list, in order |
| PortfolioInsights.MissingGroup | backend/ai_services/portfolio_content_generator.py:693-720 | a missing-section item is suggested exactly when neither of its two type names occurs |
| PortfolioInsights.MissingGroups | backend/ai_services/portfolio_content_generator.py:689-720 | add_header, add_about and add_contact are suggested exactly when neither the short nor the builder name of that section occurs |
| PortfolioInsights.EmptyContentItem | backend/ai_services/portfolio_content_generator.py:723-750 | a component gets at most one fill item: fill_about for an about component without a truthy bio, else fill_skills or fill_projects for an empty skills or projects component |
| PortfolioInsights.EmptyContent | backend/ai_services/portfolio_content_generator.py:723-750 | the empty-section items are exactly those of the single components, at most one per component |
| PortfolioInsights.ProfileItems | backend/ai_services/portfolio_content_generator.py:753-777 | add_meta_description, add_keywords and add_profile_photo are suggested exactly when neither of the field's two names, respectively the photo, is truthy |
| PortfolioInsights.TypesOf | backend/ai_services/portfolio_content_generator.py:689 | the component types, one per component |
| PortfolioInsights.SuggestImprovements | backend/ai_services/portfolio_content_generator.py:675-779 | at most three missing-section items, one per component and three profile items |
| PortfolioInsights.SuggestionActions | backend/ai_services/portfolio_content_generator.py:675-779 | each kind of action in the list comes from its own stage only |
| PortfolioInsights.SuggestMissingIff | backend/ai_services/portfolio_content_generator.py:693-720 | the list suggests a missing section exactly when neither of its names is a component type |
| PortfolioInsights.SuggestProfileIff | backend/ai_services/portfolio_content_generator.py:753-777 | the list suggests an SEO or photo item exactly when the portfolio lacks it |
| PortfolioInsights.SuggestFillAboutIff | backend/ai_services/portfolio_content_generator.py:723-734 | the list suggests fill_about exactly when some about component has no truthy bio |
| PortfolioInsights.SuggestionsOrdered | backend/ai_services/portfolio_content_generator.py:675-779 | missing-section items come before empty-section items, which come before SEO and photo items |
| PortfolioContent.RawSkills | backend/ai_services/portfolio_content_generator.py:221-237 | with no skills in the resume or the existing content the defaults are used, and a truthy resume list is taken as it is (also lines 340-354) |
| PortfolioContent.StripEach | backend/ai_services/portfolio_content_generator.py:226 | each comma-separated piece is stripped in place |
| PortfolioContent.CleanSkills | backend/ai_services/portfolio_content_generator.py:240 | the cleaned skills are non-blank, stripped, and no more than the raw ones |
| PortfolioContent.SkillNames | backend/ai_services/portfolio_content_generator.py:219-252 | at most the cap of non-blank stripped skills, distinct ignoring case, being the first occurrences of the cleaned skills in order (also lines 338-369) |
| PortfolioContent.CappedUnique | backend/ai_services/portfolio_content_generator.py:242-252 | the seen-set loop keeps exactly the first occurrence of each lower-cased skill, each one a cleaned skill |
| PortfolioContent.CleanSkillsOfClean | backend/ai_services/portfolio_content_generator.py:240 | already clean non-blank skill names pass the cleaning unchanged |
| PortfolioContent.SkillsDefaultWhenNone | backend/ai_services/portfolio_content_generator.py:230-237 | without skills in the resume or the existing content the skills are Communication, Problem Solving and Teamwork |
| PortfolioContent.DefaultsClean | backend/ai_services/portfolio_content_generator.py:237 | the default skills survive cleaning |
| PortfolioContent.DefaultsDistinct | backend/ai_services/portfolio_content_generator.py:237 | the default skills survive de-duplication |
| PortfolioContent.TimelineEntry | backend/ai_services/portfolio_content_generator.py:382-388 | an entry has exactly the five timeline keys, a truthy title kept, "Position" and "Company" when absent, and the joined responsibilities when there is no description |
| PortfolioContent.Timeline | backend/ai_services/portfolio_content_generator.py:372-390 | exactly the dict entries among the first ten experiences, each formatted, in order; the existing experiences stand in for missing resume ones; the build raises exactly when the experience value is neither a list nor a string, which `[:10]` cannot slice |
| PortfolioContent.ExperienceProject | backend/ai_services/portfolio_content_generator.py:403-411 | a project made from an experience has exactly the seven project keys; its title is "<title, else position> at <company>"; its description is the description, else the responsibilities joined by spaces; the short description is the first 200 characters of that; image and URLs are "" and technologies empty |
| PortfolioContent.ProjectGridContent | backend/ai_services/portfolio_content_generator.py:393-417 | the reply has exactly the keys projects, `filter_categories = []` and `show_filters = true`; truthy existing projects, or no experience, keep the existing projects value; otherwise the projects are the experience project cards of the dict entries among the first five experiences, in order; the build raises exactly when that truthy experience is neither a list nor a string |
| PortfolioContent.ProjectsContent | backend/ai_services/portfolio_content_generator.py:255-260 | existing projects are kept, else the list is empty |
| PortfolioContent.DefaultCounters | backend/ai_services/portfolio_content_generator.py:445-451 | the four labelled counters; with n the number of existing projects, else of experiences: projects completed max(n, 5), years of experience max(number of experiences, 2), happy clients max(2n, 10), skills mastered the number of skills or else 10 |
| PortfolioContent.CountersContent | backend/ai_services/portfolio_content_generator.py:439-453 | existing counters are kept, else the four default counters |
| PortfolioContent.ContactContent | backend/ai_services/portfolio_content_generator.py:263-293 | the contact has exactly email, phone, location and social; a truthy resume value wins over the existing one |
| PortfolioContent.ContactSocial | backend/ai_services/portfolio_content_generator.py:287-292 | the links always include linkedin, github and website, and every existing social entry overrides the derived one |
| PortfolioContent.HeroBannerContent | backend/ai_services/portfolio_content_generator.py:296-311 | the title is the name; the subtitle is the professional title cut to 100 characters, or "Welcome to My Portfolio" without one |
| PortfolioContent.AboutMeCardContent | backend/ai_services/portfolio_content_generator.py:314-335 | the bio is the resume's summary when present, else the default sentence with the name |
| PortfolioContent.ServicesContent | backend/ai_services/portfolio_content_generator.py:420-436 | existing services are kept; else one service per skill for at most six skills, titled by the skill; else the three default services |
| PortfolioContent.TestimonialsContent | backend/ai_services/portfolio_content_generator.py:456-471 | existing testimonials are kept, else one sample testimonial |
| PortfolioContent.BlogPreviewContent | backend/ai_services/portfolio_content_generator.py:474-481 | the existing posts, three per row |
| PortfolioContent.FooterContent | backend/ai_services/portfolio_content_generator.py:494-518 | the copyright line names the resume's name and there are three links |
| PortfolioContent.PlaceholderTableKeys | backend/ai_services/portfolio_content_generator.py:525-565 | the placeholder table covers exactly the sixteen component types |
| PortfolioContent.Placeholder | backend/ai_services/portfolio_content_generator.py:521-567 | a known type gets its placeholder and any other type `{}` |
| PortfolioContent.HeaderTitle | backend/ai_services/portfolio_content_generator.py:136-153 | the professional title is always truthy, and is the resume's own title when it has one |
| PortfolioContent.HeaderContent | backend/ai_services/portfolio_content_generator.py:155-207 | the header has exactly a title and a subtitle: the AI's when its reply has a subtitle, else the name and the professional title cut to 100 characters |
| PortfolioContent.ComponentContent | backend/ai_services/portfolio_content_generator.py:78-129 | without an AI client, or for an unknown type, the placeholder is returned, and an unknown type always gets `{}`; the dispatch raises exactly when a configured timeline or project-grid build raises |
| PortfolioModels.SavePortfolio | backend/portfolios/models.py:78-88 | a portfolio keeps a slug it has; an empty slug becomes the first candidate from the title that no portfolio of any user holds |
| PortfolioModels.OtherOrders | backend/portfolios/serializers.py:35-39 | the orders of exactly the portfolio's other components, the component being validated left out |
| PortfolioNavigation.VisibleComponents | src/components/portfolio/PortfolioNavigation.tsx:29-31 | exactly the visible components, sorted by order |
| PortfolioNavigation.EqualOrdersKeepInputOrder | src/components/portfolio/PortfolioNavigation.tsx:29-31 | sections with the same order keep their input order |
| PortfolioNavigation.DisplayName | src/components/portfolio/PortfolioNavigation.tsx:34-41 | the six known types get their fixed label and any other type is labelled by itself, so only an empty type gives an empty label (also line 103) |
| PortfolioNavigation.Render | src/components/portfolio/PortfolioNavigation.tsx:87-104 | no bar exactly when nothing is visible; otherwise one entry per visible section, in order, active exactly for the active section |
| PortfolioSerializers.MaxOrder | backend/portfolios/serializers.py:35-39 | the largest other order, absent exactly when there are no other components |
| PortfolioSerializers.NextOrder | backend/portfolios/serializers.py:34-40 | the fallback order is free, exceeds every other order, is 0 for a portfolio without other components and is never negative when no order is |
| PortfolioSerializers.AssignOrder | backend/portfolios/serializers.py:25-49 | without a portfolio the order is left alone; with one, a free provided order is kept and a colliding or missing one becomes an order above every other |
| PortfolioSerializers.AsWrittenAgreesUnlessMaxZero | backend/portfolios/serializers.py:35-48 | the code as written agrees with the intended rule unless the largest other order is 0 |
| PortfolioSerializers.AsWrittenReusesZero | backend/portfolios/serializers.py:35-48 | as written, with one sibling at order 0, a colliding or missing order is reassigned 0 again, which breaks the table's uniqueness of (portfolio, component type, order) for a sibling of the same type |
| PortfolioSerializers.AssignOrderKeepsValid | backend/portfolios/serializers.py:25-49 | adding a component with the assigned order keeps the orders non-negative and free of clashes (the constraints of backend/portfolios/models.py:124-140) |
| PortfolioSerializers.PathOf | backend/portfolios/serializers.py:81 | the part of a URL before its first '?', the whole URL when it has none |
| PortfolioSerializers.ProfilePhotoUrl | backend/portfolios/serializers.py:73-84 | a URL exactly when there is a photo: the absolute URL when a request is given, with "v=" and the timestamp appended after '?' or '&' when there is an update time (also lines 86-100 for the user's own photo) |
| PortfolioSerializers.CacheBustKeepsPath | backend/portfolios/serializers.py:81-82 | cache-busting keeps the URL as a prefix and its path unchanged, using '&' exactly when the URL already has a query |
| PortfolioSerializers.CacheBustEndsWithStamp | backend/portfolios/serializers.py:82 | the cache-busted URL ends with "v=" and the timestamp |
| PortfolioSerializers.PathOfAppend | backend/portfolios/serializers.py:81 | appending a query part never changes the path |
| Slugs.Candidate | backend/portfolios/models.py:81-86 | the first candidate is the base, and the k-th later one is the base, '-', and more |
| Slugs.CandidateInjective | backend/portfolios/models.py:84-86 | different counters give different candidates |
| Slugs.FreeSlug | backend/portfolios/models.py:83-87 | the loop stops at the first free candidate, every earlier one being taken, after at most as many steps as there are taken slugs (also backend/blogs/models.py:70-74, backend/projects/models.py:71-75) |
| Slugs.SlugsOf | backend/blogs/models.py:71 | the slugs of exactly the user's rows (also backend/projects/models.py:72) |
| Slugs.SaveSlug | backend/blogs/models.py:66-75 | an existing slug is kept; an empty one becomes the first free candidate from the title (also backend/projects/models.py:67-76) |
| ProjectGrid.AllTechsMembers | src/components/portfolio/TemplateProjectGrid.tsx:33-41 | a technology is met while walking the projects exactly when some project lists it |
| ProjectGrid.Categories | src/components/portfolio/TemplateProjectGrid.tsx:33-41 | the filter buttons name each technology of some project exactly once |
| ProjectGrid.CategoriesFirstSeen | src/components/portfolio/TemplateProjectGrid.tsx:33-41 | the buttons follow the order in which technologies are first met |
| ProjectGrid.FilteredProjects | src/components/portfolio/TemplateProjectGrid.tsx:43-50 | "all" shows every project; any other filter shows exactly the projects listing that technology |
| ProjectGrid.FilterKeepsOrder | src/components/portfolio/TemplateProjectGrid.tsx:43-50 | filtering works project by project, so the original order is kept |
| ProjectGrid.EveryCategoryShowsAProject | src/components/portfolio/TemplateProjectGrid.tsx:33-50 | every filter button shows at least one project |
| ProjectGrid.CategoriesEmptyIff | src/components/portfolio/TemplateProjectGrid.tsx:33-41 | there are filter buttons exactly when some project lists a technology |
| ProjectGrid.Render | src/components/portfolio/TemplateProjectGrid.tsx:52-81 | nothing is rendered exactly for no projects; the filter bar shows exactly when filters are on and some technology exists; the grid shows the filtered projects |
| ProjectModels.SaveProject | backend/projects/models.py:67-76 | only the slug changes: a project keeps its slug, and an empty one becomes the first candidate from the title that none of the same user's projects holds |
| ProjectModels.OtherUsersDoNotBlock | backend/projects/models.py:72 | another user's slug never blocks a candidate |
| ProjectModels.FeaturedFirst | backend/projects/models.py:62 | a featured project comes before every unfeatured one whatever the orders |
| ProjectModels.ProjectBeforeIsTotalPreorder | backend/projects/models.py:62 | the default ordering (featured first, then order, then newest) compares any two projects and is transitive |
| ProjectsGallery.ImageOf | src/components/portfolio/ProjectsGallery.tsx:44-47 | an image is shown only for a project that has one and whose image has not failed, and a string image that has not failed is shown |
| ProjectsGallery.TechnologiesOf | src/components/portfolio/ProjectsGallery.tsx:63-67 | a `technologies` array is used as it is; otherwise the truthy names of the `tags` array, every one of them; otherwise none |
| ProjectsGallery.Shortened | src/components/portfolio/ProjectsGallery.tsx:72-75 | a description of more than 150 characters keeps its first 150 followed by "..."; anything else is shown as it is |
| ProjectsGallery.Badges | src/components/portfolio/ProjectsGallery.tsx:106-119 | at most five badges, the first technologies, and a "+n more" count of the rest that is positive only when five are shown |
| ProjectsGallery.CardOf | src/components/portfolio/ProjectsGallery.tsx:57-120 | no card exactly for a falsy project or one without a truthy id or title; a card carries its id, title, technologies and the first min(n, 5) of them as badges, with the rest counted |
| ProjectsGallery.Render | src/components/portfolio/ProjectsGallery.tsx:30-60 | "no projects" exactly for a non-array or empty input; otherwise every card comes from a displayable project and every displayable project has its card |
| ProjectsGallery.ImageErrorHidesOnlyThatImage | src/components/portfolio/ProjectsGallery.tsx:40-47 | a failed image hides that project's image and no other project's |
| ProjectsGallery.MoreBadgeIff | src/components/portfolio/ProjectsGallery.tsx:116-119 | the "+n more" badge appears exactly when a project has more than five technologies |
| ProjectsGallery.ShortenedKeepsPrefix | src/components/portfolio/ProjectsGallery.tsx:72-75 | the shown description is at most 153 characters and begins with the first 150 of the original |
| ResumeFieldMapper.SkillText | src/utils/resumeFieldMapper.ts:64 | each skill of a skills array becomes a trimmed string |
| ResumeFieldMapper.SkillPieces | src/utils/resumeFieldMapper.ts:60-77 | the skill pieces are all trimmed; a string's pieces contain no comma; an array gives one piece per item |
| ResumeFieldMapper.NormalizeResumeSkills | src/utils/resumeFieldMapper.ts:60-77 | the normalised skills are non-empty trimmed names; a falsy value or one that is neither an array nor a string gives none; a string's skills hold no comma; an array never gains skills |
| ResumeFieldMapper.NormalizeSkillsIdempotent | src/utils/resumeFieldMapper.ts:60-77 | normalising the normalised skill list again changes nothing |
| ResumeFieldMapper.NormalizeJoinedSkills | src/utils/resumeFieldMapper.ts:60-77 | a comma-joined list of plain skill names normalises back to the same list |
| ResumeFieldMapper.SkillPiecesOfString | src/utils/resumeFieldMapper.ts:68-73 | a non-empty skills string is split at commas and each piece trimmed |
| ResumeFieldMapper.ConvertExperienceToTimeline | src/utils/resumeFieldMapper.ts:79-119 | every timeline entry is the conversion of some experience and has a title, company, description or date; every converted entry with content is kept; a non-array gives none |
| ResumeFieldMapper.ConvertExperienceAppend | src/utils/resumeFieldMapper.ts:95-118 | converting a list equals converting its two parts and concatenating, so entries stay in input order |
| ResumeFieldMapper.ConvertOneExperience | src/utils/resumeFieldMapper.ts:95-118 | a single experience gives its converted entry exactly when that entry has content, else nothing |
| ResumeFieldMapper.TitledExperienceKeepsEveryEntry | src/utils/resumeFieldMapper.ts:95-118 | when every entry has a title, no entry is dropped and each keeps its own title |
| ResumeFieldMapper.TimelineValue | src/utils/resumeFieldMapper.ts:103-110 | a timeline entry is written as an object carrying its title and description |
| ResumeFieldMapper.PickIndices | src/utils/resumeFieldMapper.ts:610-614 | the converted indices are in range; no selection means every index in order; a selection keeps exactly its in-range indices |
| ResumeFieldMapper.ShortDescription | src/utils/resumeFieldMapper.ts:625-627 | a description over 200 characters is cut to its first 200 and "..." is added; a shorter one is kept |
| ResumeFieldMapper.ToProject | src/utils/resumeFieldMapper.ts:616-637 | a converted project always has a non-empty title and description, and its short description is derived from the description |
| ResumeFieldMapper.ProjectTitleNamesCompany | src/utils/resumeFieldMapper.ts:618-631 | with a company the title ends in " at " and the company; without one the title is the entry's own title fallback and the company is "" |
| ResumeFieldMapper.ProjectTitle | src/utils/resumeFieldMapper.ts:618 | the project title is never empty and is the entry's title whenever it has one |
| ResumeFieldMapper.ConvertExperienceToProjects | src/utils/resumeFieldMapper.ts:588-640 | one project per picked index, in the picked order; a non-array experience gives none |
| ResumeFieldMapper.NoSelectionConvertsAll | src/utils/resumeFieldMapper.ts:610-614 | with no selection every entry is converted, in order |
| ResumeFieldMapper.ProjectValue | src/utils/resumeFieldMapper.ts:629-635 | a converted project is written as an object with its title and an empty technology list |
| ResumeFieldMapper.SocialChainsPickFirstTruthy | src/utils/resumeFieldMapper.ts:361-367 | linkedin, github, website and location each take the first truthy of their sources, in source order (also lines 212-214 and 467-485) |
| ResumeFieldMapper.HeadlinePicksFirstTruthy | src/utils/resumeFieldMapper.ts:302-307 | the hero headline is the first truthy of title, summary, first job title, first job position, else "" |
| ResumeFieldMapper.Listed | src/utils/resumeFieldMapper.ts:151-159 | a catalogue field is listed exactly when its value is truthy |
| ResumeFieldMapper.ContactFields | src/utils/resumeFieldMapper.ts:197-224 | every listed contact field has a truthy value |
| ResumeFieldMapper.ListedArray | src/utils/resumeFieldMapper.ts:162-177 | an array field is listed exactly when it is a non-empty array |
| ResumeFieldMapper.GetAvailableResumeFields | src/utils/resumeFieldMapper.ts:122-236 | no resume lists nothing; every listed field is truthy; personal lists name, title and summary in that order, each when truthy; experience, education and certifications each list their array exactly when it is non-empty; contact fields follow the contact catalogue; a skills string is listed as its trimmed pieces, a non-empty skills array as itself, and any other skills value not at all |
| ResumeFieldMapper.SkillsFields | src/utils/resumeFieldMapper.ts:180-193 | a non-empty string is listed as its comma pieces, trimmed; a non-empty array is listed as itself; an empty array or any value that is neither string nor array lists nothing; whatever is listed is truthy |
| ResumeFieldMapper.BlankSkillsStillListed | src/utils/resumeFieldMapper.ts:180-194 | a skills string of only a comma and blanks is still listed, as two empty pieces |
| ResumeFieldMapper.MappedTypeOf | src/utils/resumeFieldMapper.ts:292-497 | a recognised component type is one of the six mapped types, by its own name |
| ResumeFieldMapper.MappedTypeNamesRoundTrip | src/utils/resumeFieldMapper.ts:292-497 | each mapped type's name is recognised as that type |
| ResumeFieldMapper.MapIf | src/utils/resumeFieldMapper.ts:328-335 | a default mapping is proposed, enabled, exactly when its value is truthy |
| ResumeFieldMapper.HeroMappings | src/utils/resumeFieldMapper.ts:293-325 | the hero mappings name distinct resume fields with truthy values, and only the summary mapping is disabled |
| ResumeFieldMapper.SocialMappings | src/utils/resumeFieldMapper.ts:361-391 | the social mappings are enabled, distinct and truthy, and name only linkedin, github and website |
| ResumeFieldMapper.AboutMappings | src/utils/resumeFieldMapper.ts:327-393 | the about-card mappings are enabled, distinct and truthy |
| ResumeFieldMapper.ContactInfoMappings | src/utils/resumeFieldMapper.ts:443-494 | the contact-info mappings are enabled, distinct and truthy, and name only contact fields |
| ResumeFieldMapper.ContactMappings | src/utils/resumeFieldMapper.ts:434-496 | the contact-form mappings are enabled, distinct and truthy |
| ResumeFieldMapper.SkillsMappings | src/utils/resumeFieldMapper.ts:395-406 | the skills mapping is enabled and truthy |
| ResumeFieldMapper.TimelineMappings | src/utils/resumeFieldMapper.ts:408-419 | the timeline mapping is enabled and truthy |
| ResumeFieldMapper.ProjectMappings | src/utils/resumeFieldMapper.ts:421-432 | the project mapping is enabled and truthy |
| ResumeFieldMapper.ProjectValues | src/utils/resumeFieldMapper.ts:422-424 | the project list written is the converted projects, one object each |
| ResumeFieldMapper.GetDefaultFieldMappings | src/utils/resumeFieldMapper.ts:282-500 | no resume or an unmapped type gives no mappings; the mappings name distinct fields with truthy values; the only disabled one is the hero summary |
| ResumeFieldMapper.ContactFormMatchesCatalogue | src/utils/resumeFieldMapper.ts:197-224 | the contact-form mappings are exactly the catalogue's contact fields, in order, each written under contact_info (also lines 443-494) |
| ResumeFieldMapper.Assign | src/utils/resumeFieldMapper.ts:254-267 | writing one mapping into an object leaves an object |
| ResumeFieldMapper.AssignAll | src/utils/resumeFieldMapper.ts:269-274 | writing a list of mappings into an object leaves an object |
| ResumeFieldMapper.PreviewFieldMappingAsWritten | src/utils/resumeFieldMapper.ts:241-277 | the preview as written is an object, empty without a resume |
| ResumeFieldMapper.PreviewFieldMapping | src/utils/resumeFieldMapper.ts:241-277 | the corrected preview is an object, empty without a resume |
| ResumeFieldMapper.SelectionOf | src/utils/resumeFieldMapper.ts:271 | the selection built from the mappings holds each mapped field with that mapping's enabled flag |
| ResumeFieldMapper.BuilderSelectionHidesDisabled | src/utils/resumeFieldMapper.ts:270-274 | when the selection mirrors the mappings' enabled flags, the preview as written agrees with the corrected one |
| ResumeFieldMapper.PreviewAsWrittenShowsSummary | src/utils/resumeFieldMapper.ts:270-274 | as written, a preview without a selection puts the disabled summary in the hero subtitle, over the headline (also lines 316-323) |
| ResumeFieldMapper.LastPlainWriteWins | src/utils/resumeFieldMapper.ts:254-267 | after writing a list of mappings, a plain field holds the value of the last mapping written to it |
| ResumeFieldMapper.HeroShownEndsWithHeadline | src/utils/resumeFieldMapper.ts:293-325 | with the title not deselected, the last enabled hero mapping shown is the headline into the subtitle |
| ResumeFieldMapper.HeroPreviewShowsHeadline | src/utils/resumeFieldMapper.ts:241-325 | the corrected hero preview shows the headline as the subtitle |
| ResumeFieldMapper.ApplyFieldMapping | src/utils/resumeFieldMapper.ts:505-560 | no resume or no mappings leaves the content unchanged; applying never drops a key |
| ResumeFieldMapper.AssignAllKeepsKeys | src/utils/resumeFieldMapper.ts:521-545 | writing mappings never removes a top-level key |
| ResumeFieldMapper.TopKeyWritten | src/utils/resumeFieldMapper.ts:525-541 | writing along a path leaves its first non-empty key present |
| ResumeFieldMapper.AssignAllFrame | src/utils/resumeFieldMapper.ts:521-545 | a top-level key no mapping targets keeps its value |
| ResumeFieldMapper.ApplyLeavesUntargetedKeys | src/utils/resumeFieldMapper.ts:505-560 | content under keys that no applied mapping targets survives unchanged |
| ResumeFieldMapper.ApplyIgnoresDisabled | src/utils/resumeFieldMapper.ts:522 | disabled mappings have no effect: applying them is the same as leaving them out |
| ResumeFieldMapper.ApplyThenRead | src/utils/resumeFieldMapper.ts:521-545 | after applying a mapping last, reading its path gives back its value |
| ResumeFieldMapper.MapResumeToComponent | src/utils/resumeFieldMapper.ts:562-583 | over the corrected preview (enabled mappings only): no resume gives the existing content (or nothing); otherwise the preview, or the existing content overlaid by the preview when merging |
| ResumeFieldMapper.MapResumeToComponentAsWritten | src/utils/resumeFieldMapper.ts:562-583 | as written, over the preview as written: no resume gives the existing content (or nothing); otherwise the preview, or the existing content overlaid by the preview when merging |
| ResumeParser.ExtractPdf | backend/ai_services/resume_parser.py:11-38 | PDF extraction fails only when both extractors fail, and then names the PDF failure; otherwise it gives the first extractor's page texts joined, or the second extractor's text |
| ResumeParser.ExtractDocx | backend/ai_services/resume_parser.py:41-58 | DOCX extraction fails exactly when the document cannot be read, with the DOCX failure message carrying the reader's error |
| ResumeParser.Lines | backend/ai_services/resume_parser.py:54-55 | each paragraph contributes its text followed by a newline, one per paragraph |
| ResumeParser.ExtractorFor | backend/ai_services/resume_parser.py:73-78 | "pdf" picks the PDF extractor and "docx" or "doc" the DOCX one, ignoring case; any other type has none |
| ResumeParser.FallbackData | backend/ai_services/resume_parser.py:136-149 | the fallback record has exactly the nine resume keys, its summary is the first 500 characters of the text, and every other key is empty |
| ResumeParser.ParseResumeFile | backend/ai_services/resume_parser.py:61-149 | an unsupported file type is refused naming the type; a parse only succeeds for a supported type |
| ResumeParser.ParseUsesReplyIff | backend/ai_services/resume_parser.py:80-149 | once the text is extracted, the parse returns it with the generator's reply when configured and the reply is not an error, and with the fallback record otherwise |
| ResumeSerializers.ValidateFile | backend/resumes/serializers.py:42-58 | a file is accepted exactly when its lower-cased name ends in .pdf, .docx or .doc and it is at most 10 MiB; the type is checked before the size; an accepted file comes back unchanged |
| ResumeSerializers.AcceptedUploadsAreParseable | backend/resumes/serializers.py:44-49 | every accepted upload has a type the parse view can extract (with backend/ai_services/views.py:40-44) |
| ResumeSerializers.SizeBoundary | backend/resumes/serializers.py:52-56 | a file of exactly 10 MiB is accepted and one byte more is refused as too large |
| ResumeSerializers.FileSize | backend/resumes/serializers.py:34-40 | the size is reported exactly when there is a file whose size can be read, and is that size |
| SeoAnalyzer.RangeIssue | backend/ai_services/seo_analyzer.py:28-48 | a text field is missing exactly when empty, too short exactly when shorter than the range, too long exactly when longer, and fine exactly when inside it (also lines 51-71) |
| SeoAnalyzer.PenaltiesSnoc | backend/ai_services/seo_analyzer.py:24-89 | the total penalty grows by exactly the penalty of each rule-based recommendation added |
| SeoAnalyzer.BasicScoreIsDeductions | backend/ai_services/seo_analyzer.py:24-89 | the rule-based score is 100 less the penalties of the recommendations made, so it stays between 50 and 100 |
| SeoAnalyzer.RecsOf | backend/ai_services/seo_analyzer.py:28-89 | a check contributes a recommendation for its field exactly when it finds an issue, and that issue |
| SeoAnalyzer.BasicRecsSplit | backend/ai_services/seo_analyzer.py:27-89 | the rule-based recommendations are the title, description, keyword and content checks' findings, in that order |
| SeoAnalyzer.TitleAndDescriptionFlags | backend/ai_services/seo_analyzer.py:27-71 | the title is reported missing, too short (under 30) or too long (over 60) exactly when it is, and the description likewise with 120 and 160 |
| SeoAnalyzer.KeywordAndContentFlags | backend/ai_services/seo_analyzer.py:73-89 | missing keywords are reported exactly when there are none, and short content exactly when it is under 300 characters |
| SeoAnalyzer.BasicRecsOrdered | backend/ai_services/seo_analyzer.py:27-89 | the rule-based recommendations name each field at most once, in the order title, description, keywords, content |
| SeoAnalyzer.PartsRanked | backend/ai_services/seo_analyzer.py:27-89 | four checks of increasing field rank, each giving at most one recommendation, give recommendations in strictly increasing field rank |
| SeoAnalyzer.ClampScore | backend/ai_services/seo_analyzer.py:145 | clamping succeeds exactly on numbers and booleans and always lands in 0 to 100; a score already inside is kept |
| SeoAnalyzer.ClampScoreIdempotent | backend/ai_services/seo_analyzer.py:145 | clamping a clamped score changes nothing |
| SeoAnalyzer.AsAiRecs | backend/ai_services/seo_analyzer.py:135-136 | each of the generator's recommendations is kept, one for one and in order |
| SeoAnalyzer.AnalyzeSeo | backend/ai_services/seo_analyzer.py:8-157 | the analysis raises exactly when a non-blank keyword meets content that is all white space (division by zero), or a configured dict reply has recommendations that cannot be iterated, a keyword density that cannot update a dict (not a dict, an empty string, or a list of two-element items whose first element is hashable), or a score (its own, else the computed one) that is not a number; otherwise, without a configured generator or a dict reply, the report is the rule-based one with readability 70; the score is always in range; the rule-based recommendations always come first; the meta-tag flags and content length follow the input; a reply's score replaces the computed one, clamped |
| SeoAnalyzer.Extension | backend/ai_services/seo_analyzer.py:135-136 | `list.extend` takes a list's items, a string's one-character strings or a dict's keys, and raises on anything else |
| SeoAnalyzer.DictRecommendationsAreKeys | backend/ai_services/seo_analyzer.py:135-136 | a dict of recommendations contributes each of its keys as a recommendation |
| SeoAnalyzer.UnhashableDensityKeyFails | backend/ai_services/seo_analyzer.py:139-140 | a keyword-density pair whose key is a list or a dict cannot be hashed by `dict.update`, so the analysis raises |
| SeoAnalyzer.BlankContentWithKeywordFails | backend/ai_services/seo_analyzer.py:92-101 | a non-blank keyword without commas and non-empty content made only of white space make the analysis raise |
| SeoAnalyzer.UnconfiguredScore | backend/ai_services/seo_analyzer.py:24-112 | without the generator, and when the keyword density does not divide by zero, the score is 100 less the penalties of the recommendations reported |
| SeoAnalyzer.AiRecommendationsAppended | backend/ai_services/seo_analyzer.py:132-136 | a reply's recommendation list is appended after the rule-based ones |
| SkillExtractor.Matched | backend/ai_services/skill_extractor.py:21-33 | the keywords found are exactly the listed technical keywords that occur in the lower-cased text, in list order |
| SkillExtractor.Entries | backend/ai_services/skill_extractor.py:29-33 | each found keyword gives one entry: its title-cased name, category "technical", confidence 0.6 |
| SkillExtractor.ExtractSkills | backend/ai_services/skill_extractor.py:8-66 | without a client: one entry per found keyword, at most 20; with one: a list reply as it is, a dict's "skills" entry, else an empty list |
| SkillExtractor.JavaScriptAlsoYieldsJava | backend/ai_services/skill_extractor.py:27-28 | matching is by substring, so text mentioning javascript also reports java |
| TagEditing.ParseTags | src/pages/BlogPosts.tsx:164-166 | an empty tag field sends no names and any other field sends at least one; every name is trimmed and comma-free (also src/pages/Projects.tsx:294-296) |
| TagEditing.ParseJoinRoundTrip | src/pages/Projects.tsx:265-296 | editing a project's plain tag names joins them with ", ", and saving the untouched field sends back the same names (also src/pages/BlogPosts.tsx:134) |
| JsText.OrChain | src/utils/resumeFieldMapper.ts:302-307 | a chain of `||` gives one of its operands: the first truthy one, or the last when none is truthy; the result is truthy exactly when some operand is |
| JsText.TrimEach | src/utils/resumeFieldMapper.ts:184 | every piece is trimmed, one for one |
| JsText.NonEmpty | src/utils/resumeFieldMapper.ts:65 | the kept pieces are exactly the non-empty ones |
| JsText.NonEmptyKeepsAll | src/utils/resumeFieldMapper.ts:65 | a list without empty pieces is kept whole |
| JsText.SplitTrim | src/utils/resumeFieldMapper.ts:184 | splitting at commas and trimming gives at least one piece, none containing a comma |
| JsText.SplitJoinedList | src/utils/resumeFieldMapper.ts:184 | splitting a ", "-joined list of comma-free names gives the first name and each later name after a space |
| JsText.TrimPaddedNames | src/utils/resumeFieldMapper.ts:184 | trimming those pieces gives back the plain names |
| JsText.TagsRoundTrip | src/pages/Projects.tsx:265-296 | splitting and trimming a ", "-joined list of plain names gives the names back |
| TemplateAbout.SectionClass | src/components/portfolio/TemplateAbout.tsx:57-65 | a known template type gets its own section class, and any other name the modern one |
| TemplateAbout.ContainsChar | src/components/portfolio/TemplateAbout.tsx:72 | a one-character search finds exactly the positions holding that character |
| TemplateAbout.HasMarkdownIff | src/components/portfolio/TemplateAbout.tsx:72 | the bio counts as markdown exactly when it holds one of `*`, `[`, `#` or a backtick (the `**` test adds nothing) |
| TemplateAbout.Render | src/components/portfolio/TemplateAbout.tsx:38-123 | a blank or non-string bio shows the placeholder; otherwise the toggle appears exactly when the bio is over 500 characters, the collapsed display is the cut bio ending in "...", the expanded or short display is the whole bio, and markdown is rendered exactly when a markdown mark occurs |
| TemplateAbout.ExpandShowsWholeBio | src/components/portfolio/TemplateAbout.tsx:66-72 | expanding shows the whole bio, and whether it is read as markdown does not depend on expanding |
| TemplateBlog.TruncateText | src/components/portfolio/TemplateBlog.tsx:40-43 | a text within the limit is kept; a longer one becomes a trimmed slice of its first characters followed by "...", at most three characters over the limit |
| TemplateBlog.ToggleExpand | src/components/portfolio/TemplateBlog.tsx:63-73 | toggling a post flips exactly its own membership in the expanded set |
| TemplateBlog.ToggleTwice | src/components/portfolio/TemplateBlog.tsx:63-73 | toggling a post twice restores the expanded set |
| TemplateBlog.Excerpt | src/components/portfolio/TemplateBlog.tsx:134 | a post's own non-empty excerpt is shown as is; with neither an excerpt nor content the excerpt is empty |
| TemplateBlog.ContentExcerptHasNoMarks | src/components/portfolio/TemplateBlog.tsx:134 | an excerpt made from the content holds none of the marks `#`, `*` and backtick |
| TemplateBlog.PostImage | src/components/portfolio/TemplateBlog.tsx:75-78 | an image is shown only for a truthy featured image, and always for a non-empty string one |
| TemplateBlog.ViewOf | src/components/portfolio/TemplateBlog.tsx:131-135 | a card is expanded exactly when its post id is in the expanded set, and shows an excerpt exactly when collapsed with a non-empty excerpt (also lines 169-181) |
| TemplateBlog.Render | src/components/portfolio/TemplateBlog.tsx:45-131 | with no valid posts the empty message is shown; otherwise one card per validated post, in order |
| TemplateBlog.ToggleChangesOneCard | src/components/portfolio/TemplateBlog.tsx:63-73 | toggling one post leaves every other post's card as it was |
| TemplateExamples.ExampleFor | src/utils/templateExampleData.ts:21-453 | each template type's example portfolio is of that type, its sections are the fixed section types in order, numbered from 1 and all visible, and its title is the header's title |
| TemplateExamples.GetExampleDataForTemplate | src/utils/templateExampleData.ts:457-474 | the example is chosen by the lower-cased type name, and an unknown name gets the modern example; every example is well formed |
| TemplateExamples.ExampleRendersWithItsTemplate | src/utils/templateExampleData.ts:457-474 | the example chosen for a name is drawn by the template that name selects, the modern one for an unknown name (with src/components/templates/TemplateRenderer.tsx) |
| TemplateExamples.OwnersDistinct | src/utils/templateExampleData.ts:21-453 | the five example portfolios belong to five different people |
| TemplatePreview.KeyDown | src/components/TemplatePreview.tsx:91-107 | the left arrow moves one viewport towards desktop and the right arrow one towards mobile, stopping at the ends; any other key changes nothing |
| TemplatePreview.ArrowsUndoEachOther | src/components/TemplatePreview.tsx:91-107 | away from the ends, a left arrow then a right arrow (or the reverse) returns to the same viewport |
| TemplatePreview.TwoStepsReachAnEnd | src/components/TemplatePreview.tsx:91-107 | two right arrows reach mobile from any viewport, and two left arrows reach desktop |
| TemplatePreview.OnOpenChange | src/components/TemplatePreview.tsx:49-54 | opening the dialog resets the viewport to desktop; closing it keeps the viewport |
| TemplatePreview.ViewportStylesDistinct | src/components/TemplatePreview.tsx:69-89 | each viewport has its own width class and its own scale |
| TemplateTypes.ParseType | src/components/templates/TemplateRenderer.tsx:106-136 | a name denotes a template type exactly when it is that type's own name |
| TemplateTypes.TypeOrModern | src/components/templates/TemplateRenderer.tsx:106-143 | a known name selects its own template and any other name the modern one |
| TemplateTypes.TypeNameSelects | src/components/templates/TemplateRenderer.tsx:106-143 | each template type's own name selects that template |
| TemplateRenderer.RenderedTemplate | src/components/templates/TemplateRenderer.tsx:33-143 | a template other than modern is drawn only for its own name; a missing, empty or non-string type draws the modern one |
| TemplateRenderer.RenderedTemplateOfName | src/components/templates/TemplateRenderer.tsx:106-136 | each template's own name draws that template |
| TemplateRenderer.Normalized | src/components/templates/TemplateRenderer.tsx:74-80 | a rendered component is an object whose content is the normalised content of the original |
| TemplateRenderer.NormalizedAll | src/components/templates/TemplateRenderer.tsx:74-84 | every component is normalised, one for one and in order |
| TemplateRenderer.Survivors | src/components/templates/TemplateRenderer.tsx:85-102 | the components kept are exactly the normalised components that are not hidden and have content |
| TemplateRenderer.RenderedComponents | src/components/templates/TemplateRenderer.tsx:67-103 | a portfolio whose components are not a list renders none |
| TemplateRenderer.SurvivorsKeepOrder | src/components/templates/TemplateRenderer.tsx:85-102 | filtering a joined list is filtering each part, so the kept components stay in their order |
| TemplateRenderer.NormalizedAllAppend | src/components/templates/TemplateRenderer.tsx:74-84 | normalising a joined list is normalising each part |
| TemplateRenderer.NormalizedKeepsFields | src/components/templates/TemplateRenderer.tsx:77-80 | normalising replaces only the content; every other field of the component is kept |
| TemplateRenderer.HiddenComponentDropped | src/components/templates/TemplateRenderer.tsx:87-89 | a component marked not visible is never rendered |
| TemplateRenderer.NonObjectDropped | src/components/templates/TemplateRenderer.tsx:85-102 | a component that is not an object is never rendered |
| TemplateRenderer.ContactComponentSurvives | src/components/templates/TemplateRenderer.tsx:85-102 | a visible contact component is always rendered, since its normalised content is never empty |
| TemplateRenderer.HeaderKeptIff | src/components/templates/TemplateRenderer.tsx:85-102 | a header component is rendered exactly when it is not hidden and its title or subtitle is filled |
| TemplateStyles.HexValue | src/utils/templateStyles.ts:21 | a hex digit's value is below 16 |
| TemplateStyles.HexDigitsOf | src/utils/templateStyles.ts:19 | an accepted colour is six hex digits, with or without a leading '#' |
| TemplateStyles.Channels | src/utils/templateStyles.ts:18-23 | a colour has channels exactly when it is accepted, and each channel is below 256 |
| TemplateStyles.HexToRgb | src/utils/templateStyles.ts:18-23 | a colour converts to an RGB triple exactly when it is six hex digits with an optional '#' |
| TemplateStyles.HexDigit | src/utils/templateStyles.ts:21 | the digit written for a value below 16 reads back as that value |
| TemplateStyles.RgbHexRoundTrip | src/utils/templateStyles.ts:18-23 | writing three channels as hex and reading them back gives the same channels |
| TemplateStyles.HashOptional | src/utils/templateStyles.ts:19 | a colour converts the same with or without its leading '#' |
| TemplateStyles.ColourWrites | src/utils/templateStyles.ts:38-46 | a colour that parses sets both its RGB variable and its colour variable; one that does not sets neither |
| TemplateStyles.ApplyTemplateStyles | src/utils/templateStyles.ts:28-52 | without an element nothing is set; the font is set, in both places, exactly when a font family is configured |
| TemplateStyles.ColourSetIff | src/utils/templateStyles.ts:35-41 | the primary colour (the default when none is configured) is set exactly when it parses, together with its RGB triple |
| TemplateStyles.DefaultColoursApplied | src/utils/templateStyles.ts:35-46 | with no colours configured the default blue and slate are set with RGB 37, 99, 235 and 100, 116, 139 |
| TemplateStyles.SixDigits | src/utils/templateStyles.ts:19 | '#' followed by six hex digits is accepted, giving those digits |
| TemplateStyles.DefaultPrimaryRgb | src/utils/templateStyles.ts:35 | the default primary colour is 37, 99, 235 |
| TemplateStyles.DefaultSecondaryRgb | src/utils/templateStyles.ts:36 | the default secondary colour is 100, 116, 139 |
| TemplateStyles.InvalidColourSetsNothing | src/utils/templateStyles.ts:35-41 | a configured primary colour that does not parse sets neither primary variable; the default is not used instead |
| TemplateStyles.ClassesOf | src/utils/templateStyles.ts:63-94 | a template's header, section and card classes are its container class with "-header", "-section" and "-card" |
| TemplateStyles.GetTemplateClasses | src/utils/templateStyles.ts:57-97 | a known type's classes are named after it, and any other name gets the modern classes |
| TemplateStyles.ClassesDistinct | src/utils/templateStyles.ts:63-94 | different templates have different container classes |
| TemplateStyles.GetTemplateColors | src/utils/templateStyles.ts:102-142 | configured primary and secondary colours replace the scheme's own; without them the named scheme's (or modern's) colours are used |
| TemplateStyles.BackgroundIgnoresConfig | src/utils/templateStyles.ts:108-139 | the background and text colours depend only on the template, never on the configuration |
| TestimonialsCarousel.Next | src/components/portfolio/TemplateTestimonialsCarousel.tsx:31-33 | the next arrow moves to the following testimonial and wraps from the last to the first |
| TestimonialsCarousel.Prev | src/components/portfolio/TemplateTestimonialsCarousel.tsx:35-39 | the previous arrow moves to the preceding testimonial and wraps from the first to the last |
| TestimonialsCarousel.PrevAfterNext | src/components/portfolio/TemplateTestimonialsCarousel.tsx:31-39 | the previous arrow undoes the next arrow |
| TestimonialsCarousel.NextAfterPrev | src/components/portfolio/TemplateTestimonialsCarousel.tsx:31-39 | the next arrow undoes the previous arrow |
| TestimonialsCarousel.IndexStaysInRange | src/components/portfolio/TemplateTestimonialsCarousel.tsx:25-41 | from the first testimonial, any sequence of arrow and indicator presses keeps the index on a testimonial (also line 111) |
| TestimonialsCarousel.FullTurn | src/components/portfolio/TemplateTestimonialsCarousel.tsx:31-33 | m presses of the next arrow advance m places around the circle, so n presses return to the start |
| TestimonialsCarousel.Current | src/components/portfolio/TemplateTestimonialsCarousel.tsx:27-41 | nothing is shown for an empty list; otherwise the testimonial shown is one of the list |
| TextImprover.Improvements | backend/ai_services/text_improver.py:31-35 | the grammar request is included exactly when asked for, and first; the SEO request exactly when asked for; nothing else |
| TextImprover.ImprovementsTextCases | backend/ai_services/text_improver.py:31-37 | the request reads: both phrases joined by ", ", the one chosen, or "enhance the writing" when neither is chosen |
| TextImprover.ImproveText | backend/ai_services/text_improver.py:8-50 | without a client the text comes back behind the placeholder line; with one a generation is requested with 1000 tokens at temperature 0.7 |
| TextImprover.PromptMentions | backend/ai_services/text_improver.py:39-48 | the prompt carries the purpose, the tone, the requested improvements and the original text, in that order |
| Seqs.Move | src/pages/PortfolioBuilder.tsx:686-698 | moving an item keeps the length, puts the moved item at its new place, and leaves every other item in its relative order |
| Seqs.MovePermutes | src/pages/PortfolioBuilder.tsx:686-698 | a move only reorders: the same items, each as often as before |
| Seqs.MoveBack | src/pages/PortfolioBuilder.tsx:686-698 | moving an item back to where it came from restores the list |
| Seqs.SortBy | src/pages/UploadResume.tsx:46-50 | sorting reorders the items, each as often as before, into ascending key order |
| Seqs.SortByStable | src/pages/UploadResume.tsx:46-50 | items with equal keys keep their input order, as the engine's sort guarantees |
| Seqs.Dedupe | backend/ai_services/portfolio_content_generator.py:43 | removing repeats keeps every item exactly once and adds nothing |
| Strings.TrimIdempotent | src/pages/BlogPosts.tsx:141 | trimming a trimmed text changes nothing |
| Strings.TrimShape | src/pages/BlogPosts.tsx:141 | a trimmed text is a slice of the original with no white space at either end |
| Strings.JoinSplit | src/utils/resumeFieldMapper.ts:524 | joining the pieces of a split with the separator gives the text back |
| Strings.SplitJoin | src/utils/resumeFieldMapper.ts:524 | splitting a join of separator-free pieces gives the pieces back |
| Strings.NatToStringRoundTrip | src/pages/Dashboard.tsx:175-182 | the decimal text of a count reads back as the count |

## Left out

- The generative-AI SDK, `time.sleep` and logging are not modelled. The provider's reply, the model constructor and the waits are parameters, and the waits are recorded rather than slept.
- The regular expressions that pull a retry delay out of a quota message are not modelled. They are the `delayOf` parameter.
- JSON decoding of AI replies and of HTTP bodies is not modelled. It is a parameter returning a value or a failure.
- The Django ORM, the REST framework's views, JWT and allauth plumbing are not modelled. Database lookups, `authenticate` and user creation are parameters; only what the code does with their answers is modelled.
- PDF and DOCX text extraction is not modelled. The libraries' outcomes are inputs.
- WeasyPrint rendering, the file system and the operating-system check are not modelled. Their outcomes are inputs.
- `fetch`, `localStorage`, CORS and network `TypeError` handling are not modelled. `refreshAccessToken`'s request is also left out: its resulting token per attempt is a parameter.
- Toasts, `confirm()` dialogs, scroll spying, timers and React rendering are left out; they are presentation.
- `slugify` is a parameter. Only the uniqueness loop around it is modelled.
- The WHATWG URL parser behind `new URL(...)` and `isValidImageUrl` is a parameter.
- The `markdownToHtml` regular-expression chain is not modelled. Only the decision to render markdown is.
- Python's `str.title()` is modelled for ASCII letters only.
- `Strings.Lower` maps ASCII letters only. Unicode case mapping is not modelled.
- Lengths are counted in characters. JavaScript's UTF-16 code units for characters outside the basic plane are not modelled.
- Keyword density and the other floating-point percentages of the SEO analysis are not modelled.
- AI confidence scores and their display are not modelled.
- `formatDate` is not modelled. Parsing of `uploaded_at` into a `Date` is replaced by a millisecond input, so an unparsable date (NaN) is not modelled.
- The dashboard's whole-day difference is an input rather than computed from the clock.
- `formatFileSize` is not modelled; it is presentation.
- Purely presentational components are not modelled: layout, icons, animations and the template pages' markup.
- Object lookups that hit JavaScript prototype keys (a type named `constructor` in `classes[templateType]`, for instance) are not modelled. Objects hold only their own keys.
- Python's `list(set(...))` order is unspecified. `PortfolioInsights.FallbackKeywords` and `Seqs.Dedupe` keep the first occurrence instead; every property proved about them is independent of order.
- `Object.keys` lists integer-like keys first. The model keeps insertion order for all keys.
- Duplicate keys in a JSON object are not modelled.
- `String(v)` and Python's `str(v)` of non-string values are the abstract `show` parameter.
- A non-string `image`, `bio`, `email` or `content_markdown` is treated as absent or empty where the source would render it with `String()`.
- ResumeFieldMapper.MapResumeToComponent: uses the corrected preview, in which disabled mappings are skipped. The source calls `previewFieldMapping` as written (see Findings); that behaviour is ResumeFieldMapper.MapResumeToComponentAsWritten.
- ResumeFieldMapper.PreviewFieldMapping: the selection is a map over the resume field names the mappings use. Selections under other names cannot affect a mapping in the source either.
- ResumeFieldMapper.ConvertExperienceToProjects: a `null` entry in the experience list makes the source throw, because it reads `exp.title` without `?.`. The model reads it as an entry with no fields.
- ResumeFieldMapper.ApplyFieldMapping: the source copies the content one level deep, so writes through dotted paths also change nested objects the caller still holds. The model returns a fresh value and does not model that sharing.
- The `try`/`catch` around each write in `applyFieldMapping` is not modelled. Its `catch` cannot be reached for JSON objects.
- The exception branch of `TemplateRenderer`'s normalisation is not modelled. It cannot be reached for JSON data.
- TemplateStyles: every field of a template configuration is taken as present.
- The example portfolios' prose is abstract. Bios, skill lists and sample projects are left out; their structure is kept.
- The demo projects' texts and tags are abstract.
- ApiClient: a `null` error body is treated like `{}`.
- ApiClient: a body that is not JSON is the `Unparsable` outcome. The `SyntaxError` text itself is not modelled.
- ApiClient: the wording of the message logged before a retry is not modelled.
- PortfolioBuilder: components are compared by value, not by reference.
- PortfolioBuilder: the drag-and-drop ids are list indices, and `arrayMove` is its pure reordering.
- PortfolioBuilder: the order updates sent to the back end after a move are not modelled.
- The builder's auto-save timer is not modelled.
- `order ?? 0` on an absent order is not modelled: components always carry an order.
- Deleting a blog post on the blog posts page is not modelled.
- The resume page's `handleSelectResume` fetch and `handleGenerateBio` are not modelled; both are requests whose results are only displayed.
- The classification of login errors in the sign-in page is not modelled. This is `src/pages/Auth.tsx:168-190`, which only picks a message text.
- The `parseInt` of the category field in the project and blog post save requests is not modelled. The editors model no category.
- ChooseTemplate.LoadTemplates: a paginated answer whose `results` is not an array is read as no templates, as the render guard does.
- ProjectGrid: a project technology named "all" is hidden behind the "all" filter, as in the source.
- FileUpload: a file named exactly `pdf` counts as having the `.pdf` extension, because the source takes the text after the last dot.
- BlogModels.PostBefore: puts a post without a `published_date` after every dated post (NULLS LAST). That is SQLite's order for a descending sort; PostgreSQL's default for a descending sort is NULLS FIRST, which would put undated posts first. The database engine is not part of this model.
- PortfolioInsights.PortfolioKeywords: only the path without an AI client is modelled. The AI path, which returns the first fifteen keywords of the reply, is left out.
- PortfolioContent.ComponentContent: for a configured client and a known type, the result is constrained only through the per-type builders. Of the builders' raises, only the slicing `TypeError` of the timeline and the project grid is modelled; the others are listed under their builders.
- SeoAnalyzer.AnalyzeSeo: the text fields are taken as strings. The keyword density values (floating point) are left out; only the ways computing or merging them raises are modelled. The order of a dict's keys is the `keyOrder` parameter, because a JSON object here is a map without order.
- AiViews.ParseResume: the reply lists the skills in extraction order. The source lists `resume_data.skills.all()`, which the table's default ordering (backend/resumes/models.py:81) sorts by descending confidence and then by name; that sort is not modelled.
- AiViews.ParseResume: rows created before a failing skill entry are kept, as under Django's default autocommit. A request-wide transaction, which would roll them back, is not modelled.
- AiViews.ParseResume: the body of the framework's 500 page for an unconvertible id is not modelled. `int()` text with non-ASCII digits, and ids beyond the database's integer range, are not modelled either.
- AiViews.ParseResume: the database's own checks on a row (the 100-character limit on a skill name, the conversion of the confidence to a float) are not modelled.
- AiViews.ParseReplacesSkills: the stored rows are listed in creation order. The table's default ordering by descending confidence and then name is not modelled.
- PortfolioContent.DefaultCounters: `len()` of an existing `projects`, or a resume `experience` or `skills`, that is a number, a boolean or None raises a `TypeError` in the source. The model counts such a value as 0.
- PortfolioContent.HeroBannerContent: a truthy `experience` that is not a list, or whose first entry is not a dict, makes `[0]` or `.get` raise in the source, and a truthy title that is neither a string nor a list makes `[:100]` raise. The model reads such an entry as having no fields and keeps such a title whole.
- PortfolioContent.ContactSocial: an existing `social` that is not a dict makes `.get` (or the `**` spread) raise in the source. The model treats it as empty.
- PortfolioContent.TimelineEntry: `' '.join` of responsibilities that are not a list of strings raises a `TypeError` in the source, and a string of responsibilities is joined character by character. The model joins only the string elements of a list and reads anything else as no responsibilities.
- PortfolioContent.ExperienceProject: a title, position or company that is not a string makes `+` raise a `TypeError` in the source, and the responsibilities are joined as in PortfolioContent.TimelineEntry. The model prints such a value with `show`.
- ContentGenerator.Expertise: joining skills that are not strings raises a `TypeError` in the source. The model joins only the string elements.
- ContentGenerator.ShortDescription: `', '.join(technologies[:3])` raises a `TypeError` in the source when one of the first three technologies is not a string, or when a truthy technologies value cannot be sliced (a number, a bool or a dict). The model joins only the string elements, and gives "" for a value that cannot be sliced.
- ContentGenerator.BlogExcerpt: a `max_length` that is not an integer makes the slice raise in the source. The model takes an integer limit. A bool, which Python slices as 0 or 1, is not modelled either.
- ContentGenerator.BlogContent: the AI prompt built from the outline is not modelled, only the raise of its section walk.
- ContentGenerator.ProjectDescription: joining technologies or skills that are not strings raises a `TypeError` in the source. The model joins only the string elements, and the AI prompt is not modelled.
- PortfolioInsights.KeywordCandidates: a skill that is not a string makes `s.lower()` raise an `AttributeError` in the source, and a truthy skills value that is neither a list nor a string cannot be sliced. The model keeps only the string skills and reads any other value as no skills.
- SkillExtractor: `' '.join(skills)` raising a `TypeError` on non-string items is not modelled.

## Findings

| source | as written | input that shows it | evidently intended | confidence | as-written member | corrected member |
|---|---|---|---|---|---|---|
| backend/portfolios/serializers.py:35-48 | `max_order or -1` turns a maximum order of 0 into -1, so the next order is 0 | a portfolio whose only component has order 0, and a new component asking for order 0 or none: both end up at order 0; when the two share a component type this breaks `unique_together = ['portfolio', 'component_type', 'order']` (backend/portfolios/models.py:140), otherwise it only duplicates the order | the next free order after the maximum, 1 here | not executed | PortfolioSerializers.AsWrittenReusesZero | PortfolioSerializers.AssignOrderKeepsValid |
| src/utils/resumeFieldMapper.ts:270-274 | the preview applies every mapping, including those marked `enabled: false` | resume `{title: "Engineer", summary: "Long text"}` with no selection: the disabled summary mapping overwrites the hero subtitle with "Long text" | only enabled mappings reach the preview, so the subtitle is the headline "Engineer" | not executed | ResumeFieldMapper.PreviewAsWrittenShowsSummary | ResumeFieldMapper.HeroPreviewShowsHeadline |
| src/pages/PortfolioBuilder.tsx:977-1017 | every action starting with `add_` is treated as adding a component | the back end's `add_meta_description`, `add_keywords` and `add_profile_photo` suggestions are rejected as unsupported component types, so their branches are unreachable | those three actions reach their own handlers | not executed | PortfolioBuilder.AsWrittenRejectsSeoSuggestions | PortfolioBuilder.BackendSuggestionsSupported |
| src/pages/PortfolioBuilder.tsx:438-503 | after auto-saving a new portfolio, the component is created with the stale `portfolio.id!` | adding a first component to an unsaved portfolio: the save assigns an id, but the create request still carries none | the create request uses the id the save returned | not executed | PortfolioBuilder.AddAsWrittenLosesSavedId | PortfolioBuilder.AddComponent |
