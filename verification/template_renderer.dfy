/** What the template renderer hands to a template: the template chosen by the portfolio's
    type, and its components with normalised content, hidden and empty ones left out. */
module TemplateRenderer {
  import opened Base
  import opened Strings
  import opened Seqs
  import opened Json
  import opened TemplateTypes
  import opened ComponentData

  /** The template a portfolio renders with: `template_type || "modern"`, and modern for any
      name no template has. */
  function RenderedTemplate(templateType: Value): (t: TemplateType)
    ensures t != Modern ==> templateType == Str(TypeName(t))
    ensures !JsTruthy(templateType) || !templateType.Str? ==> t == Modern
  {
    var name := JsOr(templateType, Str("modern"));
    if name.Str? then TypeOrModern(name.s) else Modern
  }

  /** Each template is rendered for its own name. */
  lemma RenderedTemplateOfName(t: TemplateType)
    ensures RenderedTemplate(Str(TypeName(t))) == t
  {
    TypeNameSelects(t);
  }

  /** A content value that counts as filled: a non-empty array, a string with a non-space
      character, an object with a key, or any other value but null and `undefined`. */
  predicate Filled(v: Value) {
    match v
    case Arr(items) => |items| > 0
    case Str(s) => JsTrim(s) != ""
    case Obj(fields) => fields != map[]
    case Null => false
    case Undefined => false
    case _ => true
  }

  /** `Object.keys(content).length > 0 && Object.values(content).some(filled)`: an object with a
      filled field, an array with a filled element, a string with a non-space character (its
      values are its characters); numbers and booleans have no keys. */
  predicate HasContent(content: Value) {
    match content
    case Obj(fields) => exists k :: k in fields && Filled(fields[k])
    case Arr(items) => exists i :: 0 <= i < |items| && Filled(items[i])
    case Str(s) => exists i :: 0 <= i < |s| && !IsJsSpace(s[i])
    case _ => false
  }

  /** `{...component, content: normalizeComponentContent(component)}`. */
  function Normalized(c: Value, show: Value -> string, number: Value -> Value, parses: string -> bool): (r: Value)
    ensures r.Obj? && Get(r, "content") == NormalizeComponentContent(c, show, number, parses)
  {
    Set(c, "content", NormalizeComponentContent(c, show, number, parses))
  }

  /** The renderer's filter: not explicitly hidden, and with content (`content || {}`). */
  predicate Kept(n: Value) {
    Get(n, "is_visible") != Bool(false) && HasContent(JsOr(Get(n, "content"), Obj(map[])))
  }

  /** `normalizeComponentContent` with its oracles fixed, for use as a map over components. */
  function Normalizer(show: Value -> string, number: Value -> Value, parses: string -> bool): Value -> Value {
    c => Normalized(c, show, number, parses)
  }

  function NormalizedAll(items: seq<Value>, show: Value -> string, number: Value -> Value,
                         parses: string -> bool): (r: seq<Value>)
    ensures |r| == |items|
    ensures forall i :: 0 <= i < |items| ==> r[i] == Normalized(items[i], show, number, parses)
  {
    MapSeq(items, Normalizer(show, number, parses))
  }

  /** The components that reach the template: each normalised, then the kept ones in order. */
  function Survivors(items: seq<Value>, show: Value -> string, number: Value -> Value,
                     parses: string -> bool): (r: seq<Value>)
    ensures forall n :: n in r ==> Kept(n) && exists i :: 0 <= i < |items| && n == Normalized(items[i], show, number, parses)
    ensures forall i :: 0 <= i < |items| && Kept(Normalized(items[i], show, number, parses))
                        ==> Normalized(items[i], show, number, parses) in r
  {
    var all := NormalizedAll(items, show, number, parses);
    var r := Filter(all, Kept);
    assert forall n :: n in r ==> n in all;
    r
  }

  /** The rendered portfolio's components; a missing or non-array list counts as empty. */
  function RenderedComponents(portfolio: Value, show: Value -> string, number: Value -> Value,
                              parses: string -> bool): (r: seq<Value>)
    ensures !Get(portfolio, "components").Arr? ==> r == []
  {
    Survivors(ItemsOf(Get(portfolio, "components")), show, number, parses)
  }

  /** The survivors of two runs of components are the survivors of each, in order. */
  lemma SurvivorsKeepOrder(a: seq<Value>, b: seq<Value>, show: Value -> string, number: Value -> Value,
                           parses: string -> bool)
    ensures Survivors(a + b, show, number, parses) == Survivors(a, show, number, parses) + Survivors(b, show, number, parses)
  {
    var na, nb := NormalizedAll(a, show, number, parses), NormalizedAll(b, show, number, parses);
    NormalizedAllAppend(a, b, show, number, parses);
    FilterAppend(na, nb, Kept);
    assert Survivors(a + b, show, number, parses) == Filter(na + nb, Kept);
  }

  lemma NormalizedAllAppend(a: seq<Value>, b: seq<Value>, show: Value -> string, number: Value -> Value,
                            parses: string -> bool)
    ensures NormalizedAll(a + b, show, number, parses)
            == NormalizedAll(a, show, number, parses) + NormalizedAll(b, show, number, parses)
  {
    MapSeqAppend(a, b, Normalizer(show, number, parses));
  }

  /** Normalising leaves every field but `content` as it was. */
  lemma NormalizedKeepsFields(c: Value, show: Value -> string, number: Value -> Value, parses: string -> bool,
                              k: string)
    requires k != "content"
    ensures Get(Normalized(c, show, number, parses), k) == Get(c, k)
  {
  }

  /** A component marked `is_visible: false` never reaches the template. */
  lemma HiddenComponentDropped(c: Value, show: Value -> string, number: Value -> Value, parses: string -> bool)
    requires Get(c, "is_visible") == Bool(false)
    ensures !Kept(Normalized(c, show, number, parses))
  {
    NormalizedKeepsFields(c, show, number, parses, "is_visible");
  }

  /** Anything but an object is dropped: its normalised content is `{}`. */
  lemma NonObjectDropped(c: Value, show: Value -> string, number: Value -> Value, parses: string -> bool)
    requires !c.Obj?
    ensures !Kept(Normalized(c, show, number, parses))
  {
  }

  /** A contact component that is not hidden always reaches the template, whatever its content:
      its social links are an object with three keys. */
  lemma ContactComponentSurvives(c: Value, show: Value -> string, number: Value -> Value, parses: string -> bool)
    requires c.Obj? && Get(c, "component_type") == Str("contact") && Get(c, "is_visible") != Bool(false)
    ensures Kept(Normalized(c, show, number, parses))
  {
    var n := Normalized(c, show, number, parses);
    NormalizedKeepsFields(c, show, number, parses, "is_visible");
    ContactAlwaysHasSocial(c, show, number, parses);
    var content := NormalizeComponentContent(c, show, number, parses);
    assert "linkedin" in content.fields["social"].fields;
    assert Filled(content.fields["social"]);
    assert HasContent(content);
  }

  /** A header is kept exactly when it is not hidden and its title or subtitle is filled. */
  lemma HeaderKeptIff(c: Value, show: Value -> string, number: Value -> Value, parses: string -> bool)
    requires c.Obj? && Get(c, "component_type") == Str("header")
    ensures var content := JsOr(Get(c, "content"), Obj(map[]));
            Kept(Normalized(c, show, number, parses))
            <==> Get(c, "is_visible") != Bool(false)
                 && (Filled(JsOr(Get(content, "title"), Str(""))) || Filled(JsOr(Get(content, "subtitle"), Str(""))))
  {
    NormalizedKeepsFields(c, show, number, parses, "is_visible");
    var content := JsOr(Get(c, "content"), Obj(map[]));
    var t := JsOr(Get(content, "title"), Str(""));
    var s := JsOr(Get(content, "subtitle"), Str(""));
    var m := map["title" := t, "subtitle" := s];
    assert NormalizeComponentContent(c, show, number, parses) == Obj(m);
    assert HasContent(Obj(m)) <==> Filled(t) || Filled(s) by {
      assert forall k :: k in m ==> m[k] == t || m[k] == s;
      if Filled(t) {
        assert "title" in m && m["title"] == t;
      }
      if Filled(s) {
        assert "subtitle" in m && m["subtitle"] == s;
      }
    }
  }
}
