/** The blog section of the templates: validated posts shown as cards with an excerpt that
    expands to the full post. */
module TemplateBlog {
  import opened Base
  import opened Strings
  import opened Json
  import ImageUtils
  import ComponentData

  /** The excerpt length used when a post has no excerpt of its own. */
  const DefaultMaxLength: nat := 200

  /** A slice of `s` that ends no later than position `end`. */
  predicate SliceWithin(r: string, s: string, end: nat) {
    exists a, b :: 0 <= a <= b <= end <= |s| && r == s[a..b]
  }

  /** `truncateText`: a text of at most `maxLength` characters is kept; a longer one becomes its
      first `maxLength` characters, trimmed, followed by "...". */
  function TruncateText(text: string, maxLength: nat): (r: string)
    ensures |text| <= maxLength ==> r == text
    ensures |text| > maxLength ==>
              EndsWith(r, "...") && |r| <= maxLength + 3
              && SliceWithin(r[..|r| - 3], text, maxLength)
              && r[..|r| - 3] == JsTrim(text[..maxLength])
  {
    if |text| <= maxLength then text
    else
      var t := JsTrim(text[..maxLength]);
      TrimShape(text[..maxLength], IsJsSpace);
      var a, b :| 0 <= a <= b <= maxLength && t == text[..maxLength][a..b];
      assert t == text[a..b];
      var r := t + "...";
      assert r[..|r| - 3] == t;
      r
  }

  /** `toggleExpand`: flips whether one post is expanded and leaves every other post alone. */
  function ToggleExpand(expanded: set<Value>, postId: Value): (r: set<Value>)
    ensures postId in r <==> postId !in expanded
    ensures forall other :: other != postId ==> (other in r <==> other in expanded)
  {
    if postId in expanded then expanded - {postId} else expanded + {postId}
  }

  /** Expanding and collapsing again restores the previous state. */
  lemma ToggleTwice(expanded: set<Value>, postId: Value)
    ensures ToggleExpand(ToggleExpand(expanded, postId), postId) == expanded
  {
  }

  /** The markdown marks stripped from content before it serves as an excerpt. */
  const MarkdownMarks: set<char> := {'#', '*', '`'}

  /** The excerpt of a post: its own excerpt if non-empty, else its string content with the
      marks removed and cut at 200 characters, else nothing. */
  function Excerpt(post: ComponentData.BlogPost): (r: string)
    ensures post.excerpt.Some? && post.excerpt.value != "" ==> r == post.excerpt.value
    ensures !(post.excerpt.Some? && post.excerpt.value != "") && !(post.contentMarkdown.Str? && post.contentMarkdown.s != "")
            ==> r == ""
  {
    if post.excerpt.Some? && post.excerpt.value != "" then post.excerpt.value
    else if JsTruthy(post.contentMarkdown) && post.contentMarkdown.Str? then
      TruncateText(RemoveChars(post.contentMarkdown.s, MarkdownMarks), DefaultMaxLength)
    else ""
  }

  /** An excerpt made from the content carries none of the markdown marks, not even after
      truncation, and starts out as a slice of the stripped content. */
  lemma ContentExcerptHasNoMarks(post: ComponentData.BlogPost)
    requires !(post.excerpt.Some? && post.excerpt.value != "")
    ensures forall i :: 0 <= i < |Excerpt(post)| ==> Excerpt(post)[i] !in MarkdownMarks
  {
    if JsTruthy(post.contentMarkdown) && post.contentMarkdown.Str? {
      TruncateAvoids(RemoveChars(post.contentMarkdown.s, MarkdownMarks), DefaultMaxLength, MarkdownMarks);
    }
  }

  /** Truncation adds only dots, so a text free of `marks` stays free of them when no mark is
      a dot. */
  lemma TruncateAvoids(text: string, maxLength: nat, marks: set<char>)
    requires forall i :: 0 <= i < |text| ==> text[i] !in marks
    requires '.' !in marks
    ensures forall i :: 0 <= i < |TruncateText(text, maxLength)| ==> TruncateText(text, maxLength)[i] !in marks
  {
    var r := TruncateText(text, maxLength);
    if |text| > maxLength {
      var a, b :| 0 <= a <= b <= maxLength <= |text| && r[..|r| - 3] == text[a..b];
      forall i | 0 <= i < |r| ensures r[i] !in marks {
        if i < |r| - 3 {
          assert r[i] == r[..|r| - 3][i] == text[a + i];
        } else {
          assert r[|r| - 3..] == "...";
          assert r[i] == '.';
        }
      }
    }
  }

  /** A post as its card shows it. */
  datatype PostView = PostView(post: ComponentData.BlogPost, isExpanded: bool, image: Option<string>,
                               excerpt: Option<string>)

  /** `getPostImageUrl`: nothing without an image, else the resolved address. */
  function PostImage(image: Value, apiUrl: string): (r: Option<string>)
    ensures r.Some? ==> JsTruthy(image)
    ensures JsTruthy(image) && image.Str? ==> r.Some?
  {
    if !JsTruthy(image) || !image.Str? then None else ImageUtils.GetImageUrl(apiUrl, Some(image.s))
  }

  /** One card: the excerpt is shown only while the post is collapsed and the excerpt is non-empty. */
  function ViewOf(post: ComponentData.BlogPost, expanded: set<Value>, apiUrl: string): (r: PostView)
    ensures r.post == post
    ensures r.isExpanded <==> post.id in expanded
    ensures r.excerpt.Some? <==> post.id !in expanded && Excerpt(post) != ""
  {
    var e := Excerpt(post);
    PostView(post, post.id in expanded, PostImage(post.featuredImage, apiUrl),
             if e != "" && post.id !in expanded then Some(e) else None)
  }

  datatype BlogDisplay = NoPosts | Posts(views: seq<PostView>)

  /** The section: the empty state when no post validates, else one card per validated post in
      input order. */
  function Render(posts: Value, expanded: set<Value>, apiUrl: string, show: Value -> string,
                  number: Value -> Value): (r: BlogDisplay)
    ensures r.NoPosts? <==> ComponentData.ValidateBlogPosts(posts, show, number) == []
    ensures r.Posts? ==> var valid := ComponentData.ValidateBlogPosts(posts, show, number);
              |r.views| == |valid| && forall i :: 0 <= i < |valid| ==> r.views[i] == ViewOf(valid[i], expanded, apiUrl)
  {
    var valid := ComponentData.ValidateBlogPosts(posts, show, number);
    if |valid| == 0 then NoPosts
    else Posts(seq(|valid|, i requires 0 <= i < |valid| => ViewOf(valid[i], expanded, apiUrl)))
  }

  /** Toggling one post changes only that post's card. */
  lemma ToggleChangesOneCard(posts: Value, expanded: set<Value>, apiUrl: string, show: Value -> string,
                             number: Value -> Value, postId: Value)
    requires Render(posts, expanded, apiUrl, show, number).Posts?
    ensures var before := Render(posts, expanded, apiUrl, show, number);
            var after := Render(posts, ToggleExpand(expanded, postId), apiUrl, show, number);
            after.Posts? && |after.views| == |before.views|
            && forall i :: 0 <= i < |before.views| && before.views[i].post.id != postId ==> after.views[i] == before.views[i]
  {
  }
}
