/** The blog posts page: the author's posts searched by title and excerpt, and the editor's save
    checks. */
module BlogPostsPage {
  import opened Base
  import opened Strings
  import opened Seqs
  import opened JsText
  import TagEditing

  /** A post as the page lists it; `tags` are the tag names. */
  datatype Post = Post(id: int, title: string, contentMarkdown: string, excerpt: string, tags: seq<string>,
                       published: bool)

  function PostTitle(p: Post): string { p.title }

  function PostExcerpt(p: Post): string { p.excerpt }

  /** `filteredPosts`: the search over titles and excerpts. */
  function Search(posts: seq<Post>, query: string): seq<Post> {
    TitleSearch(posts, PostTitle, PostExcerpt, query)
  }

  /** Searching twice with the same query changes nothing more. */
  lemma SearchIdempotent(posts: seq<Post>, query: string)
    ensures Search(Search(posts, query), query) == Search(posts, query)
  {
    var r := Search(posts, query);
    FilterAll(r, TitleOrTextMatching(PostTitle, PostExcerpt, query));
  }

  /** The editor form. */
  datatype Form = Form(title: string, contentMarkdown: string, excerpt: string, tagField: string, published: bool)

  /** `handleEdit`: the post's fields, with its tag names joined by ", ". */
  function EditForm(p: Post): Form {
    Form(p.title, p.contentMarkdown, p.excerpt, TagEditing.JoinTags(p.tags), p.published)
  }

  datatype SaveRequest = SaveRequest(title: string, contentMarkdown: string, excerpt: string, tagNames: seq<string>,
                                     published: bool)

  /** The save checks, reported one at a time. */
  datatype SaveError = TitleRequired | ContentRequired

  /** `handleSave`: a blank title is refused first, then blank content; otherwise the tag field
      becomes its trimmed comma-separated pieces, none for an empty field. */
  function Save(f: Form): (r: Result<SaveRequest, SaveError>)
    ensures r == Err(TitleRequired) <==> JsTrim(f.title) == ""
    ensures r == Err(ContentRequired) <==> JsTrim(f.title) != "" && JsTrim(f.contentMarkdown) == ""
    ensures r.Ok? ==> r.value.title == f.title && r.value.contentMarkdown == f.contentMarkdown
                      && r.value.tagNames == TagEditing.ParseTags(f.tagField)
                      && (f.tagField == "" ==> r.value.tagNames == [])
  {
    if JsTrim(f.title) == "" then Err(TitleRequired)
    else if JsTrim(f.contentMarkdown) == "" then Err(ContentRequired)
    else Ok(SaveRequest(f.title, f.contentMarkdown, f.excerpt, TagEditing.ParseTags(f.tagField), f.published))
  }

  /** Opening a post in the editor and saving it unchanged sends back the post itself. */
  lemma EditThenSaveKeepsPost(p: Post)
    requires JsTrim(p.title) != "" && JsTrim(p.contentMarkdown) != ""
    requires forall i :: 0 <= i < |p.tags| ==> PlainName(p.tags[i])
    requires p.tags != [""]
    ensures Save(EditForm(p)) == Ok(SaveRequest(p.title, p.contentMarkdown, p.excerpt, p.tags, p.published))
  {
    TagEditing.ParseJoinRoundTrip(p.tags);
  }
}
