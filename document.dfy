/** Whole-document edits on the ordered element sequence. */
module Document {
  import opened Elements

  /** `elements.filter(e => e.id !== id)`: drops every element carrying `id`, keeping the rest in order. */
  function RemoveId(es: seq<Element>, id: string): (r: seq<Element>)
    ensures forall e :: e in r <==> e in es && e.id != id
    ensures |r| <= |es|
    ensures (forall i :: 0 <= i < |es| ==> es[i].id != id) ==> r == es
    ensures (exists i :: 0 <= i < |es| && es[i].id == id) ==> |r| < |es|
  {
    if es == [] then []
    else
      assert es == [es[0]] + es[1..];
      var rest := RemoveId(es[1..], id);
      if es[0].id == id then rest else [es[0]] + rest
  }

  /** Filtering distributes over concatenation: survivors keep their relative order. */
  lemma {:induction false} RemoveIdAppend(a: seq<Element>, b: seq<Element>, id: string)
    ensures RemoveId(a + b, id) == RemoveId(a, id) + RemoveId(b, id)
  {
    if a == [] {
      assert a + b == b;
    } else {
      assert (a + b)[1..] == a[1..] + b;
      RemoveIdAppend(a[1..], b, id);
    }
  }

  /** Whether two elements agree on everything but their origin. */
  predicate SameButPosition(a: Element, b: Element) {
    MovedTo(a, b.x, b.y) == b
  }

  /**
   * The select-drag step: every element with the selected id takes the new
   * origin (see MoveIdMovesOnlyTheSelected).
   */
  function MoveId(es: seq<Element>, id: string, nx: real, ny: real): (r: seq<Element>)
    ensures |r| == |es|
  {
    if es == [] then []
    else
      var head := if es[0].id == id then MovedTo(es[0], nx, ny) else es[0];
      [head] + MoveId(es[1..], id, nx, ny)
  }

  /**
   * A drag moves the elements with the selected id to the new origin and
   * changes nothing else about any element.
   */
  lemma {:induction false} MoveIdMovesOnlyTheSelected(es: seq<Element>, id: string, nx: real, ny: real)
    ensures var r := MoveId(es, id, nx, ny);
      && (forall i :: 0 <= i < |es| ==> SameButPosition(es[i], r[i]))
      && (forall i :: 0 <= i < |es| && es[i].id == id ==> r[i].x == nx && r[i].y == ny)
      && (forall i :: 0 <= i < |es| && es[i].id != id ==> r[i] == es[i])
  {
    if es != [] {
      MoveIdMovesOnlyTheSelected(es[1..], id, nx, ny);
      var r := MoveId(es, id, nx, ny);
      assert forall i :: 1 <= i < |es| ==> r[i] == MoveId(es[1..], id, nx, ny)[i - 1] && es[i] == es[1..][i - 1];
    }
  }

  /** Whether `redrawCanvas` gets through the whole document (every element `Drawable`). */
  predicate AllDrawable(es: seq<Element>) {
    forall i :: 0 <= i < |es| ==> Drawable(es[i])
  }

  /** Appending keeps the document drawable exactly when the new element is drawable. */
  lemma AppendDrawable(es: seq<Element>, e: Element)
    ensures AllDrawable(es + [e]) <==> AllDrawable(es) && Drawable(e)
  {
    if AllDrawable(es + [e]) {
      assert forall i :: 0 <= i < |es| ==> (es + [e])[i] == es[i];
      assert (es + [e])[|es|] == e;
    }
  }

  /**
   * Removing an id never makes a drawable document undrawable, and removing
   * the id of every undrawable element makes it drawable.
   */
  lemma RemoveIdDrawable(es: seq<Element>, id: string)
    ensures AllDrawable(es) ==> AllDrawable(RemoveId(es, id))
    ensures (forall i :: 0 <= i < |es| && !Drawable(es[i]) ==> es[i].id == id) ==> AllDrawable(RemoveId(es, id))
  {
    var r := RemoveId(es, id);
    forall i | 0 <= i < |r|
      ensures (forall j :: 0 <= j < |es| && !Drawable(es[j]) ==> es[j].id == id) ==> Drawable(r[i])
      ensures AllDrawable(es) ==> Drawable(r[i])
    {
      assert r[i] in r;
    }
  }

  /** A drag changes no element's drawability. */
  lemma MoveIdDrawable(es: seq<Element>, id: string, nx: real, ny: real)
    ensures AllDrawable(MoveId(es, id, nx, ny)) <==> AllDrawable(es)
  {
    MoveIdMovesOnlyTheSelected(es, id, nx, ny);
    var r := MoveId(es, id, nx, ny);
    assert forall i :: 0 <= i < |es| ==> (Drawable(r[i]) <==> Drawable(es[i]));
  }
}
