/** The testimonials carousel: one testimonial at a time, moved by the previous/next arrows
    (wrapping around) or by the indicator dots. */
module TestimonialsCarousel {
  import opened Base

  /** `nextTestimonial`: one step forward, from the last back to the first. */
  function Next(i: nat, n: nat): (r: nat)
    requires n > 0
    ensures r < n
    ensures i + 1 < n ==> r == i + 1
    ensures i + 1 == n ==> r == 0
  {
    (i + 1) % n
  }

  /** `prevTestimonial`: one step back, from the first round to the last; adding `n` first keeps
      the dividend non-negative, so JavaScript's remainder agrees with the mathematical one. */
  function Prev(i: nat, n: nat): (r: nat)
    requires n > 0
    ensures r < n
    ensures 0 < i <= n ==> r == i - 1
    ensures i == 0 ==> r == n - 1
  {
    (i - 1 + n) % n
  }

  /** Back after forward returns to the same testimonial. */
  lemma PrevAfterNext(i: nat, n: nat)
    requires i < n
    ensures Prev(Next(i, n), n) == i
  {
  }

  /** Forward after back returns to the same testimonial. */
  lemma NextAfterPrev(i: nat, n: nat)
    requires i < n
    ensures Next(Prev(i, n), n) == i
  {
  }

  /** The carousel's controls: the two arrows and the indicator dot of position `k`. */
  datatype Control = NextArrow | PrevArrow | Indicator(k: nat)

  /** Indicator dots exist only for the positions of the list. */
  predicate Offered(c: Control, n: nat) {
    c.Indicator? ==> c.k < n
  }

  /** The index after one control is used. */
  function Press(i: nat, n: nat, c: Control): (r: nat)
    requires n > 0
  {
    match c
    case NextArrow => Next(i, n)
    case PrevArrow => Prev(i, n)
    case Indicator(k) => k
  }

  /** The index after a run of controls, starting at `i`. */
  function Run(i: nat, n: nat, cs: seq<Control>): nat
    requires n > 0
  {
    if |cs| == 0 then i else Press(Run(i, n, cs[..|cs| - 1]), n, cs[|cs| - 1])
  }

  /** Starting from the first testimonial, any run of offered controls keeps the index on a
      testimonial of the list. */
  lemma {:induction false} IndexStaysInRange(n: nat, cs: seq<Control>)
    requires n > 0
    requires forall j :: 0 <= j < |cs| ==> Offered(cs[j], n)
    ensures Run(0, n, cs) < n
  {
    if |cs| > 0 {
      IndexStaysInRange(n, cs[..|cs| - 1]);
    }
  }

  /** `m` presses of the next arrow move `m` places round the circle, so `n` presses come back
      to where they started. */
  lemma {:induction false} FullTurn(i: nat, n: nat, m: nat)
    requires i < n
    requires m <= n
    ensures Run(i, n, seq(m, _ => NextArrow)) == if i + m < n then i + m else i + m - n
  {
    if m > 0 {
      var cs := seq(m, _ => NextArrow);
      assert cs[..m - 1] == seq(m - 1, _ => NextArrow);
      FullTurn(i, n, m - 1);
    }
  }

  /** The testimonial shown: none for an empty list, else the one at the index. */
  function Current<T>(testimonials: seq<T>, i: nat): (r: Option<T>)
    requires |testimonials| == 0 || i < |testimonials|
    ensures r.None? <==> |testimonials| == 0
    ensures r.Some? ==> r.value in testimonials
  {
    if |testimonials| == 0 then None else Some(testimonials[i])
  }
}
