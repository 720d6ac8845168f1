/**
 * The older, local-only canvas page: a stroke is a chain of two-point line
 * segments, one per pointer move, and every release saves the whole
 * drawing into the `drawings` storage list.
 */
module Legacy {
  import opened Wrappers
  import opened Elements
  import opened Persistence

  /** The older page's style defaults: black, width 1, no fill, 20 px text. */
  const LegacyStyle: AppState := AppState("#000000", 1.0, Transparent, 20.0)

  /** The two-point `line` one pointer move appends, from the start point to `(x, y)`. */
  function MoveSegment(id: string, style: AppState, sx: real, sy: real, x: real, y: real): (e: Element)
    ensures e.Segment? && e.segmentShape == Line && e.id == id
    ensures e.strokeColor == style.strokeColor && e.strokeWidth == style.strokeWidth
    ensures e.points == Some([sx, sy, x, y])
    ensures e.width >= 0.0 && e.height >= 0.0
    ensures {e.x, e.x + e.width} == {sx, x} && {e.y, e.y + e.height} == {sy, y}
  {
    Segment(id, Line, style.strokeColor, style.strokeWidth,
            Min(sx, x), Min(sy, y), Abs(x - sx), Abs(y - sy), Some([sx, sy, x, y]))
  }

  /** The segment's box does not depend on the direction of the move; only its points do. */
  lemma MoveSegmentBoxIsSymmetric(id: string, style: AppState, sx: real, sy: real, x: real, y: real)
    ensures var a, b := MoveSegment(id, style, sx, sy, x, y), MoveSegment(id, style, x, y, sx, sy);
      a.x == b.x && a.y == b.y && a.width == b.width && a.height == b.height
  {
  }

  class LegacyPage {
    var drawingId: Option<string>
    var elements: seq<Element>
    var appState: AppState
    var isDrawing: bool
    var startX: real
    var startY: real
    /** The `drawings` entry of local storage. */
    var cache: seq<Record>

    /** The page's initial `data`; `stored` is what local storage holds. */
    constructor (stored: seq<Record>)
      ensures drawingId.None? && elements == [] && appState == LegacyStyle && !isDrawing
      ensures startX == 0.0 && startY == 0.0 && cache == stored
    {
      drawingId, elements, appState := None, [], LegacyStyle;
      isDrawing, startX, startY := false, 0.0, 0.0;
      cache := stored;
    }

    /** `loadDrawing(id)`: the first cached record with the id replaces the document; none, no change. */
    method LoadDrawing(id: string)
      modifies this`elements, this`appState
      ensures FindRecord(cache, id).Some? ==>
                elements == FindRecord(cache, id).value.elements &&
                appState == FindRecord(cache, id).value.appState
      ensures FindRecord(cache, id).None? ==> elements == old(elements) && appState == old(appState)
    {
      var drawing := FindRecord(cache, id);
      if drawing.Some? {
        elements, appState := drawing.value.elements, drawing.value.appState;
      }
    }

    /** `onLoad`: with an id, remember it and load it. */
    method OnLoad(optionsId: Option<string>)
      modifies this`drawingId, this`elements, this`appState
      ensures optionsId.None? ==> unchanged(this`drawingId, this`elements, this`appState)
      ensures optionsId.Some? ==> drawingId == optionsId
      ensures optionsId.Some? && FindRecord(cache, optionsId.value).Some? ==>
                && elements == FindRecord(cache, optionsId.value).value.elements
                && appState == FindRecord(cache, optionsId.value).value.appState
      ensures optionsId.Some? && FindRecord(cache, optionsId.value).None? ==>
                unchanged(this`elements, this`appState)
    {
      if optionsId.Some? {
        drawingId := optionsId;
        LoadDrawing(optionsId.value);
      }
    }

    /**
     * `saveDrawing`: with a drawing id the record replaces the first cached
     * record with that id, or is appended; without one the timestamp id
     * `freshId` is adopted and the record is appended unconditionally.
     */
    method SaveDrawing(freshId: string, name: string, time: string)
      modifies this`drawingId, this`cache
      ensures var rec := Record(old(drawingId).GetOr(freshId), name, elements, appState, time);
        && drawingId == Some(rec.id)
        && (old(drawingId).Some? ==> cache == Upsert(old(cache), rec))
        && (old(drawingId).None? ==> cache == old(cache) + [rec])
    {
      var drawings := cache;
      var drawingData := Record(drawingId.GetOr(freshId), name, elements, appState, time);
      if drawingId.Some? {
        var index := FindIndex(drawings, drawingId.value);
        if index.Some? {
          drawings := drawings[index.value := drawingData];
        } else {
          drawings := drawings + [drawingData];
        }
      } else {
        drawingId := Some(drawingData.id);
        drawings := drawings + [drawingData];
      }
      cache := drawings;
    }

    /** `touchStart`: begin a stroke at `(x, y)`. */
    method TouchStart(x: real, y: real)
      modifies this`isDrawing, this`startX, this`startY
      ensures isDrawing && startX == x && startY == y
    {
      isDrawing, startX, startY := true, x, y;
    }

    /**
     * `touchMove`: while drawing, append one two-point line from the start
     * point to `(x, y)` and make `(x, y)` the new start point.
     */
    method TouchMove(x: real, y: real, newId: string)
      modifies this`elements, this`startX, this`startY
      ensures !isDrawing ==> elements == old(elements) && startX == old(startX) && startY == old(startY)
      ensures isDrawing ==>
                && elements == old(elements) + [MoveSegment(newId, appState, old(startX), old(startY), x, y)]
                && startX == x && startY == y
    {
      if !isDrawing {
        return;
      }
      var newElement := MoveSegment(newId, appState, startX, startY, x, y);
      elements := elements + [newElement];
      startX, startY := x, y;
    }

    /** `touchEnd`: stop drawing and save. */
    method TouchEnd(freshId: string, name: string, time: string)
      modifies this`isDrawing, this`drawingId, this`cache
      ensures !isDrawing
      ensures var rec := Record(old(drawingId).GetOr(freshId), name, elements, appState, time);
        && drawingId == Some(rec.id)
        && (old(drawingId).Some? ==> cache == Upsert(old(cache), rec))
        && (old(drawingId).None? ==> cache == old(cache) + [rec])
    {
      isDrawing := false;
      SaveDrawing(freshId, name, time);
    }

    /** `clearCanvas` after the confirmation dialog. */
    method ClearCanvas(confirmed: bool)
      modifies this`elements
      ensures confirmed ==> elements == []
      ensures !confirmed ==> elements == old(elements)
    {
      if confirmed {
        elements := [];
      }
    }

    /**
     * Save, then load the id the page now has: the saved document comes
     * back, provided that a page without an id saves under a timestamp id
     * not already cached.
     */
    method SaveThenLoad(freshId: string, name: string, time: string)
      requires drawingId.None? ==> FindRecord(cache, freshId).None?
      modifies this`drawingId, this`cache, this`elements, this`appState
      ensures drawingId.Some?
      ensures FindRecord(cache, drawingId.value) ==
                Some(Record(old(drawingId).GetOr(freshId), name, old(elements), old(appState), time))
      ensures elements == old(elements) && appState == old(appState)
    {
      ghost var rec := Record(drawingId.GetOr(freshId), name, elements, appState, time);
      ghost var before := cache;
      SaveDrawing(freshId, name, time);
      if old(drawingId).Some? {
        UpsertThenFind(before, rec);
      } else {
        AppendThenFind(before, rec);
      }
      LoadDrawing(drawingId.value);
    }
  }
}
