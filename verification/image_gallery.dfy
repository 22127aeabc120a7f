/** The image gallery: a list of images given either as bare address strings or as objects with
    a `url`, normalised to one shape before display. */
module ImageGallery {
  import opened Base
  import opened Strings
  import opened Seqs
  import opened Json

  /** A displayable image. `caption` is whatever the input carried, possibly `undefined`. */
  datatype Image = Image(url: string, alt: Value, caption: Value)

  /** "Image k", the label of the image at position `k - 1` of the input. */
  function Label(idx: nat): string {
    "Image " + NatToString(idx + 1)
  }

  /** One entry of the input at its position: a truthy string is an address labelled by its
      position; an object with a non-empty string `url` keeps its own alt text (or the label) and
      caption; anything else is dropped. */
  function Normalize(img: Value, idx: nat): (r: Option<Image>)
    ensures r.Some? ==> r.value.url != ""
    ensures img.Str? ==> (r.Some? <==> img.s != "")
    ensures img.Str? && r.Some? ==> r.value == Image(img.s, Str(Label(idx)), Undefined)
    ensures img.Obj? ==> (r.Some? <==> Get(img, "url").Str? && Get(img, "url").s != "")
    ensures !img.Str? && !img.Obj? ==> r.None?
  {
    if !JsTruthy(img) then None
    else if img.Str? then Some(Image(img.s, Str(Label(idx)), Undefined))
    else if img.Obj? && JsTruthy(Get(img, "url")) && Get(img, "url").Str? then
      Some(Image(Get(img, "url").s, JsOr(Get(img, "alt"), Str(Label(idx))), Get(img, "caption")))
    else None
  }

  /** The input paired with its positions, as `map((img, idx) => ...)` sees it. */
  function Indexed(items: seq<Value>): (r: seq<(nat, Value)>)
    ensures |r| == |items|
    ensures forall i :: 0 <= i < |items| ==> r[i] == (i as nat, items[i])
  {
    seq(|items|, i requires 0 <= i < |items| => (i as nat, items[i]))
  }

  function NormalizeAt(p: (nat, Value)): Option<Image> {
    Normalize(p.1, p.0)
  }

  /** `validImages`: the normalised entries that survive, in input order. */
  function ValidImages(items: seq<Value>): (r: seq<Image>)
    ensures |r| <= |items|
    ensures forall m :: m in r ==> exists i :: 0 <= i < |items| && Normalize(items[i], i) == Some(m)
    ensures forall i :: 0 <= i < |items| && Normalize(items[i], i).Some? ==> Normalize(items[i], i).value in r
  {
    var ps := Indexed(items);
    var r := KeepSome(ps, NormalizeAt);
    assert forall m :: m in r ==> exists i :: 0 <= i < |items| && Normalize(items[i], i) == Some(m) by {
      forall m | m in r ensures exists i :: 0 <= i < |items| && Normalize(items[i], i) == Some(m) {
        var i :| 0 <= i < |ps| && NormalizeAt(ps[i]) == Some(m);
        assert ps[i] == (i as nat, items[i]);
      }
    }
    assert forall i :: 0 <= i < |items| && Normalize(items[i], i).Some? ==> Normalize(items[i], i).value in r by {
      forall i | 0 <= i < |items| && Normalize(items[i], i).Some? ensures Normalize(items[i], i).value in r {
        assert NormalizeAt(ps[i]) == Normalize(items[i], i);
      }
    }
    r
  }

  /** What the gallery shows. */
  datatype Display = NoImages | NoValidImages | Shown(images: seq<Image>)

  function Render(images: Value): (r: Display)
    ensures r.NoImages? <==> !images.Arr? || |images.items| == 0
    ensures r.NoValidImages? <==> images.Arr? && |images.items| > 0 && ValidImages(images.items) == []
    ensures r.Shown? ==> r.images == ValidImages(images.items) && |r.images| > 0
  {
    if !images.Arr? || |images.items| == 0 then NoImages
    else
      var valid := ValidImages(images.items);
      if |valid| == 0 then NoValidImages else Shown(valid)
  }

  /** A list of non-empty address strings is shown whole, each labelled by its own position. */
  lemma {:induction false} AllStringsShown(urls: seq<string>)
    requires forall i :: 0 <= i < |urls| ==> urls[i] != ""
    ensures var r := ValidImages(Strs(urls));
            |r| == |urls| && forall i :: 0 <= i < |urls| ==> r[i] == Image(urls[i], Str(Label(i)), Undefined)
  {
    var items := Strs(urls);
    var ps := Indexed(items);
    forall i | 0 <= i < |ps| ensures NormalizeAt(ps[i]).Some? {
      assert items[i] == Str(urls[i]);
    }
    KeepSomeAll(ps, NormalizeAt);
    forall i | 0 <= i < |urls| ensures ValidImages(items)[i] == Image(urls[i], Str(Label(i)), Undefined) {
      assert items[i] == Str(urls[i]);
      assert NormalizeAt(ps[i]) == Normalize(Str(urls[i]), i);
    }
  }

  /** Images at different positions get different default labels. */
  lemma LabelsDistinct(i: nat, j: nat)
    requires i != j
    ensures Label(i) != Label(j)
  {
    if Label(i) == Label(j) {
      assert NatToString(i + 1) == Label(i)[6..];
      assert NatToString(j + 1) == Label(j)[6..];
      NatToStringInjective(i + 1, j + 1);
    }
  }
}
