/**
 * The enhanced canvas page: the in-memory document, its undo/redo history,
 * the per-tool gesture handlers, and the save/load coordinator over the
 * local cache.  Pointer events arrive with canvas coordinates already
 * resolved; ids, names and timestamps are parameters; the remote calls are
 * their resolved outcome.
 */
module Whiteboard {
  import opened Wrappers
  import opened Elements
  import opened Geometry
  import opened Document
  import opened History
  import opened Persistence

  /** The style defaults the page starts with. */
  const DefaultStyle: AppState := AppState("#000000", 2.0, Transparent, 20.0)

  /**
   * The element a shape tool commits for a drag from the start point to
   * `(x, y)`: a normalised box for rectangles, ellipses and diamonds, a
   * signed segment without points for lines and arrows.
   */
  function ShapeFromDrag(tool: Tool, id: string, style: AppState,
                         startX: real, startY: real, x: real, y: real): (e: Element)
    requires tool.IsShapeTool()
    ensures !e.Label? && e.id == id && e.strokeColor == style.strokeColor && e.strokeWidth == style.strokeWidth
    ensures tool.BoxTool? ==>
              && e.Box? && e.boxShape == tool.box && e.backgroundColor == style.backgroundColor
              && e.width >= 0.0 && e.height >= 0.0
              && {e.x, e.x + e.width} == {startX, x} && {e.y, e.y + e.height} == {startY, y}
    ensures tool.SegmentTool? ==>
              && e.Segment? && e.segmentShape == tool.segment && e.points.None?
              && e.x == startX && e.y == startY && e.x + e.width == x && e.y + e.height == y
    ensures Drawable(e) <==> tool != SegmentTool(Line)
  {
    match tool
    case BoxTool(s) => BoxFromDrag(id, s, style, startX, startY, x, y)
    case SegmentTool(s) => SegmentFromDrag(id, s, style, startX, startY, x, y)
  }

  /**
   * The evidently intended shape builder: as `ShapeFromDrag`, but lines and
   * arrows carry their two end points, so `drawElement` can walk them.
   */
  function CorrectedShapeFromDrag(tool: Tool, id: string, style: AppState,
                                  startX: real, startY: real, x: real, y: real): (e: Element)
    requires tool.IsShapeTool()
    ensures Drawable(e)
  {
    match tool
    case BoxTool(s) => BoxFromDrag(id, s, style, startX, startY, x, y)
    case SegmentTool(s) => SegmentWithPoints(id, s, style, startX, startY, x, y)
  }

  /**
   * With the corrected builder every shape commit keeps a drawable document
   * drawable, so the autosave always follows; the hit test and the box are
   * those of the element as written.
   */
  lemma CorrectedCommitKeepsDocumentDrawable(es: seq<Element>, tool: Tool, id: string, style: AppState,
                                             startX: real, startY: real, x: real, y: real, px: real, py: real)
    requires tool.IsShapeTool() && AllDrawable(es)
    ensures var c, e := CorrectedShapeFromDrag(tool, id, style, startX, startY, x, y),
                        ShapeFromDrag(tool, id, style, startX, startY, x, y);
      && AllDrawable(es + [c])
      && (tool == SegmentTool(Line) ==> !AllDrawable(es + [e]))
      && c.x == e.x && c.y == e.y && c.width == e.width && c.height == e.height
      && (IsPointInElement(px, py, c) <==> IsPointInElement(px, py, e))
  {
    var c, e := CorrectedShapeFromDrag(tool, id, style, startX, startY, x, y),
                ShapeFromDrag(tool, id, style, startX, startY, x, y);
    AppendDrawable(es, c);
    AppendDrawable(es, e);
  }

  /** `toggleFill`: transparent becomes the stroke colour, anything else becomes transparent. */
  function ToggledFill(a: AppState): (r: AppState)
    ensures r.strokeColor == a.strokeColor && r.strokeWidth == a.strokeWidth && r.fontSize == a.fontSize
    ensures a.backgroundColor == Transparent ==> r.backgroundColor == a.strokeColor
    ensures a.backgroundColor != Transparent ==> r.backgroundColor == Transparent
  {
    a.(backgroundColor := if a.backgroundColor == Transparent then a.strokeColor else Transparent)
  }

  /** A remote document that arrived and that `redrawCanvas` can draw. */
  predicate RemoteRenders(reply: LoadReply) {
    reply.LoadOk? && AllDrawable(reply.data.elements.GetOr([]))
  }

  /** Toggling twice restores a transparent fill, and a fill equal to the stroke colour. */
  lemma ToggleFillTwice(a: AppState)
    requires a.backgroundColor == Transparent || a.backgroundColor == a.strokeColor
    ensures a.strokeColor != Transparent ==> ToggledFill(ToggledFill(a)) == a
  {
  }

  class CanvasPage {
    var drawingId: Option<string>
    var elements: seq<Element>
    var history: seq<Snapshot>
    var historyIndex: int
    var appState: AppState
    var isDrawing: bool
    var startX: real
    var startY: real
    var dragOffsetX: real
    var dragOffsetY: real
    var currentPath: Option<Path>
    /** The re-entrancy guard of `saveDrawing`. */
    var saving: bool
    /** The record an unfinished save captured before awaiting the remote reply. */
    var inFlight: Option<Record>
    var currentTool: Tool
    var showTextInput: bool
    var textInputX: real
    var textInputY: real
    var textInputValue: string
    var selectedElementId: Option<string>
    /** Whether a debounced autosave timer is scheduled and has not fired. */
    var pendingSave: bool
    /** The `drawings` entry of local storage. */
    var cache: seq<Record>

    /** The history and its cursor. */
    function Log(): Timeline
      reads this
    {
      Timeline(history, historyIndex)
    }

    ghost predicate Valid()
      reads this
    {
      && History.Valid(Log())
      && (saving <==> inFlight.Some?)
    }

    /** The page's initial `data`; `stored` is what local storage holds under `drawings`. */
    constructor (stored: seq<Record>)
      ensures Valid()
      ensures drawingId.None? && elements == [] && Log() == Initial && appState == DefaultStyle
      ensures currentTool == PenTool && !isDrawing && currentPath.None? && selectedElementId.None?
      ensures !showTextInput && textInputValue == "" && !saving && !pendingSave && cache == stored
    {
      drawingId := None;
      elements := [];
      history := [];
      historyIndex := -1;
      appState := DefaultStyle;
      isDrawing := false;
      startX, startY := 0.0, 0.0;
      dragOffsetX, dragOffsetY := 0.0, 0.0;
      currentPath := None;
      saving := false;
      inFlight := None;
      currentTool := PenTool;
      showTextInput := false;
      textInputX, textInputY := 0.0, 0.0;
      textInputValue := "";
      selectedElementId := None;
      pendingSave := false;
      cache := stored;
    }

    /**
     * `saveHistory`.  As in the source, the cursor becomes the length
     * BEFORE trimming to 50, minus one, so after the 51st push it is 50 with
     * only 50 entries left (one past the end).
     */
    method SaveHistory()
      requires Valid()
      modifies this`history, this`historyIndex
      ensures Valid()
      ensures Log() == Push(old(Log()), elements)
    {
      var kept := if historyIndex + 1 <= |history| then history[..historyIndex + 1] else history;
      assert kept == Kept(Log());
      kept := kept + [elements];
      history := if |kept| > MaxEntries then kept[|kept| - MaxEntries..] else kept;
      historyIndex := |kept| - 1;
    }

    /**
     * `redrawCanvas`: draws every element in order.  It throws on the first
     * element that is not `Drawable`, and the handler that called it stops
     * there; `ok` says whether it got through.
     */
    method Redraw() returns (ok: bool)
      ensures ok == AllDrawable(elements)
    {
      var i := 0;
      while i < |elements|
        invariant 0 <= i <= |elements|
        invariant forall j :: 0 <= j < i ==> Drawable(elements[j])
      {
        if !Drawable(elements[i]) {
          return false;
        }
        i := i + 1;
      }
      return true;
    }

    /**
     * `initCanvas`, once its 100 ms timer has fired: redraw, then the
     * snapshot, which a redraw that throws skips.
     */
    method InitCanvas()
      requires Valid()
      modifies this`history, this`historyIndex
      ensures Valid()
      ensures AllDrawable(elements) ==> Log() == Push(old(Log()), elements)
      ensures !AllDrawable(elements) ==> unchanged(this`history, this`historyIndex)
    {
      var ok := Redraw();
      if ok {
        SaveHistory();
      }
    }

    /** `onReady`: it starts the same `initCanvas` timer as an id-less `onLoad`. */
    method OnReady()
      requires Valid()
      modifies this`history, this`historyIndex
      ensures Valid()
      ensures AllDrawable(elements) ==> Log() == Push(old(Log()), elements)
      ensures !AllDrawable(elements) ==> unchanged(this`history, this`historyIndex)
    {
      InitCanvas();
    }

    /**
     * A page opened without an id: `onLoad` and `onReady` each start an
     * `initCanvas` timer, so the unchanged document is snapshotted twice.
     */
    method OpenWithoutId()
      requires Valid() && AllDrawable(elements)
      modifies this`elements, this`appState, this`drawingId, this`history, this`historyIndex
      ensures Valid()
      ensures elements == old(elements) && Log() == Push(Push(old(Log()), elements), elements)
    {
      var ack := OnLoad(None, LoadFailed);
      OnReady();
    }

    /** `undo`: at cursor 0 nothing happens; otherwise restore the previous snapshot and clear the selection. */
    method Undo()
      requires Valid()
      modifies this`elements, this`historyIndex, this`selectedElementId
      ensures Valid()
      ensures Log() == History.Undo(old(Log()))
      ensures CanUndo(old(Log())) ==> elements == history[historyIndex] && selectedElementId.None?
      ensures !CanUndo(old(Log())) ==> unchanged(this`elements, this`selectedElementId)
    {
      if historyIndex > 0 {
        var newIndex := historyIndex - 1;
        elements := history[newIndex];
        historyIndex := newIndex;
        selectedElementId := None;
      }
    }

    /** `redo`: at the last entry nothing happens; otherwise restore the next snapshot and clear the selection. */
    method Redo()
      requires Valid()
      modifies this`elements, this`historyIndex, this`selectedElementId
      ensures Valid()
      ensures Log() == History.Redo(old(Log()))
      ensures CanRedo(old(Log())) ==> elements == history[historyIndex] && selectedElementId.None?
      ensures !CanRedo(old(Log())) ==> unchanged(this`elements, this`selectedElementId)
    {
      if historyIndex < |history| - 1 {
        var newIndex := historyIndex + 1;
        elements := history[newIndex];
        historyIndex := newIndex;
        selectedElementId := None;
      }
    }

    /** `findElementAt`: scan from the last element down; the first hit is the topmost. */
    method FindElementAt(x: real, y: real) returns (r: Option<Element>)
      ensures r == Topmost(elements, x, y)
    {
      var i := |elements|;
      while i > 0
        invariant 0 <= i <= |elements|
        invariant forall j :: i <= j < |elements| ==> !IsPointInElement(x, y, elements[j])
      {
        i := i - 1;
        if IsPointInElement(x, y, elements[i]) {
          return Some(elements[i]);
        }
      }
      return None;
    }

    /** `autoSave`: cancel any scheduled save and schedule a new one (one pending timer at most). */
    method AutoSave()
      modifies this`pendingSave
      ensures pendingSave
    {
      pendingSave := true;
    }

    /**
     * The tail every editing handler ends with: `saveHistory`, then
     * `redrawCanvas`, then `autoSave`, which a redraw that throws skips.
     */
    method RecordEdit()
      requires Valid()
      modifies this`history, this`historyIndex, this`pendingSave
      ensures Valid()
      ensures Log() == Push(old(Log()), elements)
      ensures pendingSave == (AllDrawable(elements) || old(pendingSave))
    {
      SaveHistory();
      var ok := Redraw();
      if ok {
        AutoSave();
      }
    }

    /**
     * `eraseAt`: remove every element carrying the topmost hit's id, push a
     * snapshot, and schedule a save if what is left can be drawn; no hit, no
     * change.  `hit` is the element found.
     */
    method EraseAt(x: real, y: real) returns (hit: Option<Element>)
      requires Valid()
      modifies this`elements, this`history, this`historyIndex, this`pendingSave
      ensures Valid()
      ensures hit == Topmost(old(elements), x, y)
      ensures hit.None? ==> unchanged(this`elements, this`history, this`historyIndex, this`pendingSave)
      ensures hit.Some? ==>
                && elements == RemoveId(old(elements), hit.value.id)
                && Log() == Push(old(Log()), elements)
                && pendingSave == (AllDrawable(elements) || old(pendingSave))
    {
      hit := FindElementAt(x, y);
      if hit.Some? {
        elements := RemoveId(elements, hit.value.id);
        RecordEdit();
      }
    }

    /**
     * The select-tool press of `touchStart`: select the topmost element at
     * the point and grab it.  `hit` is the element found.
     */
    method PickAt(x: real, y: real) returns (hit: Option<Element>)
      modifies this`selectedElementId, this`isDrawing, this`startX, this`startY,
               this`dragOffsetX, this`dragOffsetY
      ensures hit == Topmost(elements, x, y)
      ensures hit.None? ==>
                && selectedElementId.None?
                && unchanged(this`isDrawing, this`startX, this`startY, this`dragOffsetX, this`dragOffsetY)
      ensures hit.Some? ==>
                && selectedElementId == Some(hit.value.id) && isDrawing && startX == x && startY == y
                && dragOffsetX == x - hit.value.x && dragOffsetY == y - hit.value.y
    {
      hit := FindElementAt(x, y);
      if hit.Some? {
        selectedElementId := Some(hit.value.id);
        isDrawing, startX, startY := true, x, y;
        dragOffsetX, dragOffsetY := x - hit.value.x, y - hit.value.y;
      } else {
        selectedElementId := None;
      }
    }

    /**
     * `touchStart` with the pointer at `(x, y)`, dispatched on the current
     * tool; `hit` is the element the select or eraser tool found there.
     */
    method TouchStart(x: real, y: real) returns (hit: Option<Element>)
      requires Valid()
      modifies this`elements, this`history, this`historyIndex, this`pendingSave,
               this`showTextInput, this`textInputX, this`textInputY, this`textInputValue,
               this`selectedElementId, this`isDrawing, this`startX, this`startY,
               this`dragOffsetX, this`dragOffsetY, this`currentPath
      ensures Valid()
      // the text tool opens the text input at the point
      ensures currentTool.TextTool? ==>
                && showTextInput && textInputX == x && textInputY == y && textInputValue == ""
                && unchanged(this`elements, this`history, this`historyIndex, this`pendingSave,
                             this`selectedElementId, this`isDrawing, this`startX, this`startY,
                             this`dragOffsetX, this`dragOffsetY, this`currentPath)
      // the select and eraser tools hit-test first
      ensures currentTool.SelectTool? || currentTool.EraserTool? ==> hit == Topmost(old(elements), x, y)
      // the select tool selects and grabs the topmost element, or clears the selection
      ensures currentTool.SelectTool? ==>
                && unchanged(this`elements, this`history, this`historyIndex, this`pendingSave,
                             this`showTextInput, this`textInputX, this`textInputY, this`textInputValue,
                             this`currentPath)
                && (hit.None? ==>
                      && selectedElementId.None?
                      && unchanged(this`isDrawing, this`startX, this`startY, this`dragOffsetX, this`dragOffsetY))
                && (hit.Some? ==>
                      && selectedElementId == Some(hit.value.id) && isDrawing && startX == x && startY == y
                      && dragOffsetX == x - hit.value.x && dragOffsetY == y - hit.value.y)
      // the eraser erases at once
      ensures currentTool.EraserTool? ==>
                && unchanged(this`showTextInput, this`textInputX, this`textInputY, this`textInputValue,
                             this`selectedElementId, this`isDrawing, this`startX, this`startY,
                             this`dragOffsetX, this`dragOffsetY, this`currentPath)
                && (hit.None? ==> unchanged(this`elements, this`history, this`historyIndex, this`pendingSave))
                && (hit.Some? ==>
                      && elements == RemoveId(old(elements), hit.value.id)
                      && Log() == Push(old(Log()), elements)
                      && pendingSave == (AllDrawable(elements) || old(pendingSave)))
      // shape tools and the pen record the start point; the pen also starts a path
      ensures currentTool.IsShapeTool() || currentTool.PenTool? ==>
                && isDrawing && startX == x && startY == y
                && unchanged(this`elements, this`history, this`historyIndex, this`pendingSave,
                             this`showTextInput, this`textInputX, this`textInputY, this`textInputValue,
                             this`selectedElementId, this`dragOffsetX, this`dragOffsetY)
      ensures currentTool.IsShapeTool() ==> currentPath == old(currentPath)
      ensures currentTool.PenTool? ==>
                currentPath == Some(Path([x, y], appState.strokeColor, appState.strokeWidth))
    {
      hit := None;
      if currentTool.TextTool? {
        OpenTextInput(x, y);
      } else if currentTool.SelectTool? || currentTool.EraserTool? {
        hit := HitPress(x, y);
      } else {
        BeginDraw(x, y);
      }
    }

    /** The select- and eraser-tool presses of `touchStart`: both hit-test first. */
    method HitPress(x: real, y: real) returns (hit: Option<Element>)
      requires Valid() && (currentTool.SelectTool? || currentTool.EraserTool?)
      modifies this`elements, this`history, this`historyIndex, this`pendingSave,
               this`selectedElementId, this`isDrawing, this`startX, this`startY,
               this`dragOffsetX, this`dragOffsetY
      ensures Valid()
      ensures hit == Topmost(old(elements), x, y)
      // the select tool selects and grabs the topmost element, or clears the selection
      ensures currentTool.SelectTool? ==>
                && unchanged(this`elements, this`history, this`historyIndex, this`pendingSave)
                && (hit.None? ==>
                      && selectedElementId.None?
                      && unchanged(this`isDrawing, this`startX, this`startY, this`dragOffsetX, this`dragOffsetY))
                && (hit.Some? ==>
                      && selectedElementId == Some(hit.value.id) && isDrawing && startX == x && startY == y
                      && dragOffsetX == x - hit.value.x && dragOffsetY == y - hit.value.y)
      // the eraser erases at once
      ensures currentTool.EraserTool? ==>
                && unchanged(this`selectedElementId, this`isDrawing, this`startX, this`startY,
                             this`dragOffsetX, this`dragOffsetY)
                && (hit.None? ==> unchanged(this`elements, this`history, this`historyIndex, this`pendingSave))
                && (hit.Some? ==>
                      && elements == RemoveId(old(elements), hit.value.id)
                      && Log() == Push(old(Log()), elements)
                      && pendingSave == (AllDrawable(elements) || old(pendingSave)))
    {
      if currentTool.SelectTool? {
        hit := PickAt(x, y);
      } else {
        hit := EraseAt(x, y);
      }
    }

    /** The text-tool press of `touchStart`: open an empty text input at the point. */
    method OpenTextInput(x: real, y: real)
      modifies this`showTextInput, this`textInputX, this`textInputY, this`textInputValue
      ensures showTextInput && textInputX == x && textInputY == y && textInputValue == ""
    {
      showTextInput, textInputX, textInputY, textInputValue := true, x, y, "";
    }

    /**
     * The shape- and pen-tool press of `touchStart`: record the start point;
     * the pen also starts a one-point path in the current stroke style.
     */
    method BeginDraw(x: real, y: real)
      modifies this`isDrawing, this`startX, this`startY, this`currentPath
      ensures isDrawing && startX == x && startY == y
      ensures currentTool.PenTool? ==>
                currentPath == Some(Path([x, y], appState.strokeColor, appState.strokeWidth))
      ensures !currentTool.PenTool? ==> currentPath == old(currentPath)
    {
      isDrawing, startX, startY := true, x, y;
      if currentTool.PenTool? {
        currentPath := Some(Path([x, y], appState.strokeColor, appState.strokeWidth));
      }
    }

    /**
     * `touchMove`.  With the select tool and a grabbed element, every element
     * with the selected id is moved so the grab offset is kept (no snapshot);
     * shape tools only redraw a preview; otherwise a stroke in progress gets
     * the point appended.
     */
    method TouchMove(x: real, y: real)
      modifies this`elements, this`currentPath
      ensures Dragging() ==>
                && elements == MoveId(old(elements), selectedElementId.value, x - dragOffsetX, y - dragOffsetY)
                && currentPath == old(currentPath)
      ensures old(Stroking()) ==>
                && currentPath == Some(old(currentPath).value.(points := old(currentPath).value.points + [x, y]))
                && elements == old(elements)
      ensures !Dragging() && !old(Stroking()) ==> unchanged(this`elements, this`currentPath)
    {
      if currentTool.TextTool? {
        return;
      }
      if currentTool.SelectTool? && isDrawing && selectedElementId.Some? {
        DragSelected(x, y);
        return;
      }
      if currentTool.IsShapeTool() {
        return;
      }
      if !isDrawing || currentPath.None? {
        return;
      }
      ExtendPath(x, y);
    }

    /** A select-tool drag is in progress: the tool is select, a press hit an element. */
    predicate Dragging()
      reads this
    {
      currentTool.SelectTool? && isDrawing && selectedElementId.Some?
    }

    /**
     * A stroke is being recorded: a drag that is neither a select drag nor a
     * shape.  Besides the pen this holds for the eraser, and for the select
     * tool whenever no select drag is under way (no selection, or not
     * pressed): both fall through to the path extension of `touchMove`, as
     * in the source, given a path left in progress.
     */
    predicate Stroking()
      reads this
    {
      !currentTool.TextTool? && !currentTool.IsShapeTool() && !Dragging() && isDrawing && currentPath.Some?
    }

    /** The select-drag step of `touchMove`: the grabbed element's new origin keeps the grab offset. */
    method DragSelected(x: real, y: real)
      requires selectedElementId.Some?
      modifies this`elements
      ensures elements == MoveId(old(elements), selectedElementId.value, x - dragOffsetX, y - dragOffsetY)
    {
      elements := MoveId(elements, selectedElementId.value, x - dragOffsetX, y - dragOffsetY);
    }

    /** The stroke step of `touchMove`: the point is appended to the path in progress. */
    method ExtendPath(x: real, y: real)
      requires currentPath.Some?
      modifies this`currentPath
      ensures currentPath == Some(old(currentPath).value.(points := old(currentPath).value.points + [x, y]))
    {
      var path := currentPath.value;
      currentPath := Some(path.(points := path.points + [x, y]));
    }

    /**
     * The shape-tool release of `touchEnd`: commit the dragged shape, push a
     * snapshot, schedule an autosave if the document can be drawn.  A
     * line-tool line never can (`LineToolLineIsNotDrawable`).
     */
    method CommitShape(x: real, y: real, newId: string)
      requires Valid() && currentTool.IsShapeTool()
      modifies this`elements, this`history, this`historyIndex, this`pendingSave, this`isDrawing
      ensures Valid()
      ensures elements == old(elements) + [ShapeFromDrag(currentTool, newId, appState, startX, startY, x, y)]
      ensures Log() == Push(old(Log()), elements) && !isDrawing
      ensures pendingSave == (AllDrawable(elements) || old(pendingSave))
    {
      var e := ShapeFromDrag(currentTool, newId, appState, startX, startY, x, y);
      elements, isDrawing := elements + [e], false;
      RecordEdit();
    }

    /** The pen release of `touchEnd`: a path of two points or more becomes a line element. */
    method CommitStroke(newId: string)
      requires Valid() && currentPath.Some? && |currentPath.value.points| >= 4
      modifies this`elements, this`history, this`historyIndex, this`pendingSave,
               this`isDrawing, this`currentPath
      ensures Valid()
      ensures elements == old(elements) + [PenLine(newId, old(currentPath).value)]
      ensures Log() == Push(old(Log()), elements) && !isDrawing && currentPath.None?
      ensures pendingSave == (AllDrawable(elements) || old(pendingSave))
    {
      var e := PenLine(newId, currentPath.value);
      elements, isDrawing, currentPath := elements + [e], false, None;
      RecordEdit();
    }

    /**
     * `touchEnd` with the release point `(x, y)`; `newId` is the id a new
     * element would get.  Releasing the select tool pushes NO snapshot.
     */
    method TouchEnd(x: real, y: real, newId: string)
      requires Valid()
      modifies this`elements, this`history, this`historyIndex, this`pendingSave,
               this`isDrawing, this`currentPath
      ensures Valid()
      ensures currentTool.TextTool? || (currentTool.IsShapeTool() && !old(isDrawing)) ==>
                unchanged(this`elements, this`history, this`historyIndex, this`pendingSave,
                          this`isDrawing, this`currentPath)
      ensures currentTool.SelectTool? ==>
                && !isDrawing
                && unchanged(this`elements, this`history, this`historyIndex, this`pendingSave,
                             this`currentPath)
      ensures currentTool.IsShapeTool() && old(isDrawing) ==>
                && elements == old(elements) + [ShapeFromDrag(currentTool, newId, appState, startX, startY, x, y)]
                && Log() == Push(old(Log()), elements) && !isDrawing
                && pendingSave == (AllDrawable(elements) || old(pendingSave))
                && currentPath == old(currentPath)
      ensures (currentTool.PenTool? || currentTool.EraserTool?) &&
              (!old(isDrawing) || old(currentPath).None? || |old(currentPath).value.points| < 4) ==>
                && !isDrawing && currentPath.None?
                && unchanged(this`elements, this`history, this`historyIndex, this`pendingSave)
      ensures (currentTool.PenTool? || currentTool.EraserTool?) &&
              old(isDrawing) && old(currentPath).Some? && |old(currentPath).value.points| >= 4 ==>
                && elements == old(elements) + [PenLine(newId, old(currentPath).value)]
                && Log() == Push(old(Log()), elements) && !isDrawing && currentPath.None?
                && pendingSave == (AllDrawable(elements) || old(pendingSave))
    {
      if currentTool.TextTool? {
      } else if currentTool.SelectTool? {
        isDrawing := false;
      } else if currentTool.IsShapeTool() {
        if isDrawing {
          CommitShape(x, y, newId);
        }
      } else if !isDrawing || currentPath.None? || |currentPath.value.points| < 4 {
        isDrawing, currentPath := false, None;
      } else {
        CommitStroke(newId);
      }
    }

    /**
     * The committing half of `onTextInputConfirm`: append the label, hide the
     * input, push a snapshot, schedule an autosave if the document can be drawn.
     */
    method CommitText(text: string, newId: string)
      requires Valid()
      modifies this`elements, this`history, this`historyIndex, this`pendingSave,
               this`showTextInput, this`textInputValue
      ensures Valid()
      ensures elements == old(elements) + [TextLabel(newId, text, appState, textInputX, textInputY)]
      ensures Log() == Push(old(Log()), elements)
      ensures pendingSave == (AllDrawable(elements) || old(pendingSave))
      ensures !showTextInput && textInputValue == ""
    {
      var e := TextLabel(newId, text, appState, textInputX, textInputY);
      elements := elements + [e];
      showTextInput, textInputValue := false, "";
      RecordEdit();
    }

    /** `onTextInputConfirm`: commit the trimmed text at the recorded location unless it is empty. */
    method OnTextInputConfirm(value: string, newId: string)
      requires Valid()
      modifies this`elements, this`history, this`historyIndex, this`pendingSave,
               this`showTextInput, this`textInputValue
      ensures Valid()
      ensures !showTextInput && textInputValue == ""
      ensures Trim(value) == "" ==> unchanged(this`elements, this`history, this`historyIndex, this`pendingSave)
      ensures Trim(value) != "" ==>
                && elements == old(elements) + [TextLabel(newId, Trim(value), appState, textInputX, textInputY)]
                && Log() == Push(old(Log()), elements)
                && pendingSave == (AllDrawable(elements) || old(pendingSave))
    {
      var text := Trim(value);
      if text != "" {
        CommitText(text, newId);
      } else {
        showTextInput, textInputValue := false, "";
      }
    }

    /** `onTextInputCancel`. */
    method OnTextInputCancel()
      modifies this`showTextInput, this`textInputValue
      ensures !showTextInput && textInputValue == ""
    {
      showTextInput, textInputValue := false, "";
    }

    /** `clearCanvas` after the confirmation dialog: empty document, no selection, one snapshot (no autosave). */
    method ClearCanvas(confirmed: bool)
      requires Valid()
      modifies this`elements, this`selectedElementId, this`history, this`historyIndex
      ensures Valid()
      ensures confirmed ==> elements == [] && selectedElementId.None? && Log() == Push(old(Log()), [])
      ensures !confirmed ==> unchanged(this`elements, this`selectedElementId, this`history, this`historyIndex)
    {
      if confirmed {
        elements, selectedElementId := [], None;
        SaveHistory();
      }
    }

    /** `selectTool`: switch tool and clear the selection.  As in the source, `isDrawing` is NOT reset. */
    method SelectTool(tool: Tool)
      modifies this`currentTool, this`selectedElementId
      ensures currentTool == tool && selectedElementId.None?
    {
      currentTool, selectedElementId := tool, None;
    }

    /** `selectColor`: the stroke colour for new elements. */
    method SelectColor(color: string)
      modifies this`appState
      ensures appState == old(appState).(strokeColor := color)
    {
      appState := appState.(strokeColor := color);
    }

    /** `selectStrokeWidth`: the stroke width for new elements. */
    method SelectStrokeWidth(width: real)
      modifies this`appState
      ensures appState == old(appState).(strokeWidth := width)
    {
      appState := appState.(strokeWidth := width);
    }

    /** `toggleFill`. */
    method ToggleFill()
      modifies this`appState
      ensures appState == ToggledFill(old(appState))
    {
      var newColor := if appState.backgroundColor == Transparent then appState.strokeColor else Transparent;
      appState := appState.(backgroundColor := newColor);
    }

    /**
     * `deleteSelected`: with a selection, drop its id, clear the selection,
     * push a snapshot and schedule a save if what is left can be drawn; else nothing.
     */
    method DeleteSelected()
      requires Valid()
      modifies this`elements, this`selectedElementId, this`history, this`historyIndex, this`pendingSave
      ensures Valid()
      ensures old(selectedElementId).None? ==>
                unchanged(this`elements, this`history, this`historyIndex, this`pendingSave)
      ensures old(selectedElementId).Some? ==>
                && elements == RemoveId(old(elements), old(selectedElementId).value)
                && Log() == Push(old(Log()), elements)
                && pendingSave == (AllDrawable(elements) || old(pendingSave))
      ensures selectedElementId.None?
    {
      if selectedElementId.Some? {
        elements := RemoveId(elements, selectedElementId.value);
        selectedElementId := None;
        RecordEdit();
      }
    }

    /**
     * The first half of `saveDrawing`, up to the awaited remote call.  While a
     * save is in flight the call returns at once.  The record takes the
     * current id, or `freshId` (the timestamp id) when there is none, which
     * then becomes the drawing's id.
     */
    method StartSave(freshId: string, name: string, time: string) returns (started: bool)
      requires Valid()
      modifies this`saving, this`inFlight, this`drawingId
      ensures Valid()
      ensures started == !old(saving)
      ensures !started ==> unchanged(this`saving, this`inFlight, this`drawingId)
      ensures started ==> saving && drawingId == Some(old(drawingId).GetOr(freshId))
      ensures started ==> inFlight == Some(Record(drawingId.value, name, elements, appState, time))
    {
      if saving {
        return false;
      }
      saving := true;
      var rec := Record(drawingId.GetOr(freshId), name, elements, appState, time);
      if drawingId.None? {
        drawingId := Some(rec.id);
      }
      inFlight := Some(rec);
      return true;
    }

    /**
     * The second half of `saveDrawing`, when the remote call resolves.  On
     * success a returned id replaces the record's id and `drawingId`; either
     * way the record is upserted into the local cache by id.
     */
    method FinishSave(reply: SaveReply) returns (ack: SaveAck)
      requires Valid() && saving
      modifies this`saving, this`inFlight, this`drawingId, this`cache
      ensures Valid() && !saving
      ensures var rec := old(inFlight).value;
        match reply
        case SaveOk(Some(rid)) =>
          ack == SavedRemotely && drawingId == Some(rid) && cache == Upsert(old(cache), rec.(id := rid))
        case SaveOk(None) =>
          ack == SavedRemotely && drawingId == old(drawingId) && cache == Upsert(old(cache), rec)
        case SaveFailed =>
          ack == SavedLocally && drawingId == old(drawingId) && cache == Upsert(old(cache), rec)
    {
      var rec := inFlight.value;
      if reply.SaveOk? {
        if reply.returnedId.Some? {
          rec := rec.(id := reply.returnedId.value);
          drawingId := Some(reply.returnedId.value);
        }
        cache := Upsert(cache, rec);
        ack := SavedRemotely;
      } else {
        cache := Upsert(cache, rec);
        ack := SavedLocally;
      }
      saving, inFlight := false, None;
    }

    /** The debounce timer firing: the scheduled save starts. */
    method SaveTimerFired(freshId: string, name: string, time: string) returns (started: bool)
      requires Valid() && pendingSave
      modifies this`saving, this`inFlight, this`drawingId, this`pendingSave
      ensures Valid() && !pendingSave
      ensures started == !old(saving)
      ensures started ==> saving && drawingId == Some(old(drawingId).GetOr(freshId))
      ensures started ==> inFlight == Some(Record(drawingId.value, name, elements, appState, time))
      ensures !started ==> unchanged(this`saving, this`inFlight, this`drawingId)
    {
      pendingSave := false;
      started := StartSave(freshId, name, time);
    }

    /** `onUnload`: cancel the pending timer, then save at once if the document is not empty. */
    method OnUnload(freshId: string, name: string, time: string) returns (started: bool)
      requires Valid()
      modifies this`saving, this`inFlight, this`drawingId, this`pendingSave
      ensures Valid() && !pendingSave
      ensures started == (|elements| > 0 && !old(saving))
      ensures started ==> saving && drawingId == Some(old(drawingId).GetOr(freshId))
      ensures started ==> inFlight == Some(Record(drawingId.value, name, elements, appState, time))
      ensures !started ==> unchanged(this`saving, this`inFlight, this`drawingId)
    {
      pendingSave := false;
      started := false;
      if |elements| > 0 {
        started := StartSave(freshId, name, time);
      }
    }

    /**
     * `loadDrawing(id)` once the remote call has resolved.  A remote document
     * is stored and the id adopted; if it draws, a snapshot is pushed.  A
     * remote failure, or a remote document whose redraw throws, falls back to
     * the first cached record with the id (the remote document and id stay in
     * place when there is none); if that draws, a snapshot is pushed,
     * otherwise the error escapes the handler.
     */
    method LoadDrawing(id: string, reply: LoadReply) returns (ack: LoadAck)
      requires Valid()
      modifies this`elements, this`appState, this`drawingId, this`history, this`historyIndex
      ensures Valid()
      ensures RemoteRenders(reply) ==>
                && ack == Loaded && drawingId == Some(id)
                && elements == reply.data.elements.GetOr([])
                && appState == reply.data.appState.GetOr(old(appState))
                && Log() == Push(old(Log()), elements)
      ensures !RemoteRenders(reply) ==> drawingId == if reply.LoadOk? then Some(id) else old(drawingId)
      ensures !RemoteRenders(reply) && FindRecord(cache, id).Some? ==>
                && elements == FindRecord(cache, id).value.elements
                && appState == FindRecord(cache, id).value.appState
                && (AllDrawable(elements) ==> ack == LoadedLocally && Log() == Push(old(Log()), elements))
                && (!AllDrawable(elements) ==> ack == LoadAborted && unchanged(this`history, this`historyIndex))
      ensures !RemoteRenders(reply) && FindRecord(cache, id).None? ==>
                && ack == NotLoaded && unchanged(this`history, this`historyIndex)
                && (reply.LoadFailed? ==> unchanged(this`elements, this`appState))
                && (reply.LoadOk? ==>
                      && elements == reply.data.elements.GetOr([])
                      && appState == reply.data.appState.GetOr(old(appState)))
    {
      if reply.LoadOk? {
        elements := reply.data.elements.GetOr([]);
        appState := reply.data.appState.GetOr(appState);
        drawingId := Some(id);
        var ok := Redraw();
        if ok {
          SaveHistory();
          return Loaded;
        }
      }
      var drawing := FindRecord(cache, id);
      if drawing.None? {
        return NotLoaded;
      }
      elements, appState := drawing.value.elements, drawing.value.appState;
      var ok := Redraw();
      if !ok {
        return LoadAborted;
      }
      SaveHistory();
      return LoadedLocally;
    }

    /** `onLoad`: with an id, record it and load; without one, start the `initCanvas` timer. */
    method OnLoad(optionsId: Option<string>, reply: LoadReply) returns (ack: Option<LoadAck>)
      requires Valid()
      modifies this`elements, this`appState, this`drawingId, this`history, this`historyIndex
      ensures Valid()
      ensures optionsId.None? ==>
                && ack.None? && unchanged(this`elements, this`appState, this`drawingId)
                && (AllDrawable(elements) ==> Log() == Push(old(Log()), elements))
                && (!AllDrawable(elements) ==> unchanged(this`history, this`historyIndex))
      ensures optionsId.Some? ==> ack.Some? && drawingId == optionsId
      ensures optionsId.Some? && RemoteRenders(reply) ==>
                && ack.value == Loaded
                && elements == reply.data.elements.GetOr([])
                && appState == reply.data.appState.GetOr(old(appState))
                && Log() == Push(old(Log()), elements)
      ensures optionsId.Some? && !RemoteRenders(reply) && FindRecord(cache, optionsId.value).Some? ==>
                && elements == FindRecord(cache, optionsId.value).value.elements
                && appState == FindRecord(cache, optionsId.value).value.appState
                && (AllDrawable(elements) ==> ack.value == LoadedLocally && Log() == Push(old(Log()), elements))
                && (!AllDrawable(elements) ==> ack.value == LoadAborted && unchanged(this`history, this`historyIndex))
      ensures optionsId.Some? && !RemoteRenders(reply) && FindRecord(cache, optionsId.value).None? ==>
                && ack.value == NotLoaded && unchanged(this`history, this`historyIndex)
                && (reply.LoadFailed? ==> unchanged(this`elements, this`appState))
                && (reply.LoadOk? ==>
                      && elements == reply.data.elements.GetOr([])
                      && appState == reply.data.appState.GetOr(old(appState)))
    {
      if optionsId.Some? {
        drawingId := optionsId;
        var a := LoadDrawing(optionsId.value, reply);
        ack := Some(a);
      } else {
        InitCanvas();
        ack := None;
      }
    }
  }
}
