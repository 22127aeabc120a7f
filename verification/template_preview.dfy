/** The template preview dialog: the example portfolio shown at one of three viewport widths,
    switched with the arrow keys. */
module TemplatePreview {

  datatype Viewport = Desktop | Tablet | Mobile

  /** A key press as the dialog sees it. */
  datatype Key = ArrowLeft | ArrowRight | OtherKey

  /** The viewport's place in the order desktop, tablet, mobile. */
  function Index(v: Viewport): (r: nat)
    ensures r < 3
  {
    match v
    case Desktop => 0
    case Tablet => 1
    case Mobile => 2
  }

  /** The viewport at a place of the order. */
  function AtIndex(i: nat): (v: Viewport)
    requires i < 3
    ensures Index(v) == i
  {
    if i == 0 then Desktop else if i == 1 then Tablet else Mobile
  }

  /** `handleKeyDown`: the left arrow moves one step toward desktop and the right arrow one step
      toward mobile, each stopping at its end; any other key changes nothing. */
  function KeyDown(v: Viewport, key: Key): (r: Viewport)
    ensures key == ArrowLeft ==> Index(r) == if Index(v) > 0 then Index(v) - 1 else 0
    ensures key == ArrowRight ==> Index(r) == if Index(v) < 2 then Index(v) + 1 else 2
    ensures key == OtherKey ==> r == v
  {
    if key == ArrowLeft && v != Desktop then
      var i := Index(v);
      if i > 0 then AtIndex(i - 1) else v
    else if key == ArrowRight && v != Mobile then
      var i := Index(v);
      if i < 2 then AtIndex(i + 1) else v
    else v
  }

  /** Places in the order name their viewports one to one. */
  lemma IndexInjective(v: Viewport, w: Viewport)
    requires Index(v) == Index(w)
    ensures v == w
  {
  }

  /** A step right undoes a step left unless the left step hit desktop, and the other way round. */
  lemma ArrowsUndoEachOther(v: Viewport)
    ensures v != Desktop ==> KeyDown(KeyDown(v, ArrowLeft), ArrowRight) == v
    ensures v != Mobile ==> KeyDown(KeyDown(v, ArrowRight), ArrowLeft) == v
  {
    if v != Desktop {
      IndexInjective(KeyDown(KeyDown(v, ArrowLeft), ArrowRight), v);
    }
    if v != Mobile {
      IndexInjective(KeyDown(KeyDown(v, ArrowRight), ArrowLeft), v);
    }
  }

  /** The viewport after a run of key presses. */
  function Run(v: Viewport, keys: seq<Key>): Viewport {
    if |keys| == 0 then v else KeyDown(Run(v, keys[..|keys| - 1]), keys[|keys| - 1])
  }

  /** Two presses of the right arrow reach mobile from anywhere, and two of the left arrow reach
      desktop. */
  lemma TwoStepsReachAnEnd(v: Viewport)
    ensures Run(v, [ArrowRight, ArrowRight]) == Mobile
    ensures Run(v, [ArrowLeft, ArrowLeft]) == Desktop
  {
    assert [ArrowRight, ArrowRight][..1] == [ArrowRight];
    assert [ArrowLeft, ArrowLeft][..1] == [ArrowLeft];
    IndexInjective(Run(v, [ArrowRight, ArrowRight]), Mobile);
    IndexInjective(Run(v, [ArrowLeft, ArrowLeft]), Desktop);
  }

  /** The effect on the viewport of the dialog's open state changing: opening resets it to
      desktop, closing keeps it. */
  function OnOpenChange(v: Viewport, open: bool): (r: Viewport)
    ensures open ==> r == Desktop
    ensures !open ==> r == v
  {
    if open then Desktop else v
  }

  /** `getViewportClass`. */
  function ViewportClass(v: Viewport): string {
    match v
    case Tablet => "max-w-3xl mx-auto"
    case Mobile => "max-w-sm mx-auto"
    case Desktop => "max-w-6xl mx-auto"
  }

  /** `getPreviewScale`. */
  function PreviewScale(v: Viewport): string {
    match v
    case Tablet => "scale-90"
    case Mobile => "scale-75"
    case Desktop => "scale-100"
  }

  /** Each viewport has a width class and a scale of its own, so the preview shows which one is
      chosen. */
  lemma ViewportStylesDistinct(v: Viewport, w: Viewport)
    requires v != w
    ensures ViewportClass(v) != ViewportClass(w)
    ensures PreviewScale(v) != PreviewScale(w)
  {
    assert ViewportClass(Tablet)[6] == '3';
    assert ViewportClass(Mobile)[6] == 's';
    assert ViewportClass(Desktop)[6] == '6';
    assert PreviewScale(Tablet)[6] == '9';
    assert PreviewScale(Mobile)[6] == '7';
    assert PreviewScale(Desktop)[6] == '1';
  }
}
