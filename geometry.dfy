/**
 * Hit-testing: whether a point lies inside an element, and which element is
 * topmost (latest in document order) at a point.
 */
module Geometry {
  import opened Wrappers
  import opened Elements

  /** Inclusive containment in `[x, x + w] × [y, y + h]`; empty when `w` or `h` is negative. */
  predicate InBox(px: real, py: real, x: real, y: real, w: real, h: real) {
    x <= px <= x + w && y <= py <= y + h
  }

  function Square(a: real): real { a * a }

  /**
   * The ellipse inscribed in the box, `((px-cx)/rx)^2 + ((py-cy)/ry)^2 <= 1`.
   * With a zero radius the JavaScript quotient is NaN or an infinity and the
   * comparison is false, so a degenerate ellipse is never hit.
   */
  predicate InEllipse(px: real, py: real, x: real, y: real, w: real, h: real) {
    && w != 0.0 && h != 0.0
    && Square((px - (x + w / 2.0)) / (w / 2.0)) + Square((py - (y + h / 2.0)) / (h / 2.0)) <= 1.0
  }

  /** The text box is a fixed approximation: 100 wide, 20 tall, above the baseline. */
  const TextHitWidth: real := 100.0
  const TextHitHeight: real := 20.0

  /**
   * Whether the point hits the element.  Lines and arrows use their stored
   * SIGNED width and height as a box, without normalising, so a line or arrow
   * drawn up or to the left can never be hit (see SegmentHit).
   */
  predicate IsPointInElement(px: real, py: real, e: Element)
    ensures IsPointInElement(px, py, e) && e.Box? && e.boxShape == Ellipse ==> e.width != 0.0 && e.height != 0.0
    ensures IsPointInElement(px, py, e) && !e.Label? && !(e.Box? && e.boxShape == Ellipse) ==>
              e.width >= 0.0 && e.height >= 0.0
    ensures IsPointInElement(px, py, e) && e.Label? ==> e.x <= px <= e.x + TextHitWidth && py <= e.y
  {
    match e
    case Box(_, Ellipse, _, _, _, x, y, w, h) => InEllipse(px, py, x, y, w, h)
    case Box(_, _, _, _, _, x, y, w, h) => InBox(px, py, x, y, w, h)
    case Segment(_, _, _, _, x, y, w, h, _) => InBox(px, py, x, y, w, h)
    case Label(_, _, _, _, x, y) => InBox(px, py, x, y - TextHitHeight, TextHitWidth, TextHitHeight)
  }

  /**
   * The index of the topmost element at the point: the highest index whose
   * element contains it, or None when none does.
   */
  function TopmostIndex(es: seq<Element>, px: real, py: real): (r: Option<nat>)
    ensures r.Some? ==> r.value < |es| && IsPointInElement(px, py, es[r.value])
    ensures r.Some? ==> forall j :: r.value < j < |es| ==> !IsPointInElement(px, py, es[j])
    ensures r.None? <==> forall j :: 0 <= j < |es| ==> !IsPointInElement(px, py, es[j])
  {
    if es == [] then None
    else if IsPointInElement(px, py, es[|es| - 1]) then Some(|es| - 1)
    else TopmostIndex(es[..|es| - 1], px, py)
  }

  /** The topmost element itself (the value `findElementAt` returns). */
  function Topmost(es: seq<Element>, px: real, py: real): (r: Option<Element>)
    ensures r.Some? ==> IsPointInElement(px, py, r.value)
  {
    match TopmostIndex(es, px, py)
    case Some(i) => Some(es[i])
    case None => None
  }

  /** A zero-radius ellipse is never hit; a non-degenerate one always contains its centre. */
  lemma EllipseDegenerateAndCentre(px: real, py: real, x: real, y: real, w: real, h: real)
    ensures InEllipse(px, py, x, y, w, h) ==> w != 0.0 && h != 0.0
    ensures px == x + w / 2.0 && py == y + h / 2.0 && w != 0.0 && h != 0.0 ==> InEllipse(px, py, x, y, w, h)
  {
  }

  /** The element `Topmost` finds is in the document and contains the point; none is found iff none does. */
  lemma TopmostIsAHit(es: seq<Element>, px: real, py: real)
    ensures var r := Topmost(es, px, py);
      && (r.Some? ==> r.value in es && IsPointInElement(px, py, r.value))
      && (r.None? <==> forall e :: e in es ==> !IsPointInElement(px, py, e))
  {
  }

  /** Of two elements that both contain the point, the later-appended one wins. */
  lemma LaterOverlapWins(es: seq<Element>, px: real, py: real, i: nat, j: nat)
    requires i < j < |es|
    requires IsPointInElement(px, py, es[i]) && IsPointInElement(px, py, es[j])
    ensures TopmostIndex(es, px, py).Some? && TopmostIndex(es, px, py).value >= j
  {
  }

  /**
   * A line or arrow is hit exactly when its signed extent is non-negative and
   * the point lies in the box; one drawn up or left is never hit.
   */
  lemma SegmentHit(px: real, py: real, e: Element)
    requires e.Segment?
    ensures IsPointInElement(px, py, e) <==>
              e.width >= 0.0 && e.height >= 0.0 && InBox(px, py, e.x, e.y, e.width, e.height)
  {
  }

  lemma SquareAtMostOne(u: real)
    requires Square(u) <= 1.0
    ensures -1.0 <= u <= 1.0
  {
  }

  /** Within one axis: |(p - c) / r| <= 1 puts p in [c - r, c + r] for r > 0. */
  lemma WithinRadius(p: real, c: real, r: real)
    requires r > 0.0
    requires Square((p - c) / r) <= 1.0
    ensures c - r <= p <= c + r
  {
    var u := (p - c) / r;
    SquareAtMostOne(u);
    assert p - c == u * r;
  }

  /** An ellipse hit lies inside the ellipse's bounding box (positive extent). */
  lemma EllipseHitInsideBox(px: real, py: real, e: Element)
    requires e.Box? && e.boxShape == Ellipse && e.width > 0.0 && e.height > 0.0
    requires IsPointInElement(px, py, e)
    ensures InBox(px, py, e.x, e.y, e.width, e.height)
  {
    var rx, ry := e.width / 2.0, e.height / 2.0;
    var u := (px - (e.x + rx)) / rx;
    var v := (py - (e.y + ry)) / ry;
    assert Square(u) <= 1.0 && Square(v) <= 1.0;
    WithinRadius(px, e.x + rx, rx);
    WithinRadius(py, e.y + ry, ry);
  }

  /**
   * A press inside the ellipse equation but outside its box corner: the ellipse
   * spanning (0,0)-(100,100) contains its centre but not the point (5,5), which
   * its bounding box does contain.
   */
  lemma EllipseCornerIsOutside(id: string, color: string, width: real, fill: string)
    ensures var e := Box(id, Ellipse, color, width, fill, 0.0, 0.0, 100.0, 100.0);
            IsPointInElement(50.0, 50.0, e) && InBox(5.0, 5.0, 0.0, 0.0, 100.0, 100.0)
            && !IsPointInElement(5.0, 5.0, e)
  {
  }

  /** Moving an element and the point by the same offset does not change the hit result. */
  lemma HitIsTranslationInvariant(px: real, py: real, e: Element, dx: real, dy: real)
    ensures IsPointInElement(px, py, e) <==>
              IsPointInElement(px + dx, py + dy, MovedTo(e, e.x + dx, e.y + dy))
  {
    if e.Box? && e.boxShape == Ellipse && e.width != 0.0 && e.height != 0.0 {
      var m := MovedTo(e, e.x + dx, e.y + dy);
      assert (px + dx) - (m.x + m.width / 2.0) == px - (e.x + e.width / 2.0);
      assert (py + dy) - (m.y + m.height / 2.0) == py - (e.y + e.height / 2.0);
    }
  }
}
