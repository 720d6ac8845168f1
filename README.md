# Whiteboard mini-program: a verified model

This project models the drawing core of a WeChat whiteboard mini-program and
the small drawing server behind it. The model covers:

* **The enhanced canvas page** (`canvas-enhanced.js`). The page holds an
  ordered list of elements: rectangles, ellipses, diamonds, lines, arrows,
  freehand strokes and text labels. It also holds:
  * a bounded undo/redo history of whole-document snapshots;
  * per-tool pointer handlers: pen, five shape tools, text, eraser, and the
    select tool, which hit-tests and drags;
  * style controls;
  * the save/load coordinator. The coordinator talks to a remote store and
    falls back to a `drawings` list kept in local storage.
* **The older canvas page** (`canvas.js`). Its pen appends one two-point line
  per pointer move. Every release saves the whole drawing into local storage.
* **The translation lookup `t`** (`i18n.js`). The requested language comes
  first, then zh-CN, then the key itself. JavaScript `||` treats an empty
  string as missing.
* **The server's drawing store** (`server.js`). It keeps a memory map of
  posted bytes in front of one file per id. A post rejects empty bodies and
  bodies over 50 MiB. A get falls back to the file and caches it in memory.
  A delete drops both copies.

Stateful code is modelled as Dafny classes whose fields mirror the page's
`data` or the server's maps. Each handler is a method whose `modifies`
clause names the fields it touches. Its postcondition gives the new state in
terms of pure specification functions: `History.Push`, `Geometry.Topmost`,
`Document.RemoveId`, `Persistence.Upsert`, `Elements.PenLine`,
`DrawingServer.Post`, and others. The properties the source relies on are
proved as lemmas about those functions:

* the history prunes the redo branch, keeps at most 50 entries and evicts the
  oldest;
* the topmost element is the one hit last in document order;
* a stroke's box is the tight bounding box of its points;
* an upsert followed by a find returns the record;
* a post followed by a get returns the bytes;
* a delete is idempotent.

Some odd behaviours are modelled as written, not corrected:

* After the 51st snapshot, `saveHistory` leaves the history cursor ONE PAST
  the last entry. The next undo then restores the snapshot just pushed, so
  nothing visibly changes (`History.UndoAfterOverflow`).
* Lines and arrows keep a signed width and height, and their hit test uses
  them unnormalised. A line drawn up or to the left can never be hit
  (`Geometry.SegmentHit`).
* A line drawn with the line tool has no point list, and the `line` case of
  `drawElement` reads `points[0]`, so `redrawCanvas` throws from then on.
  Every handler step after a redraw is skipped while the document holds
  such a line (`Whiteboard.CanvasPage.Redraw`, `RecordEdit`):
  * the editing handlers still push their snapshot but schedule no autosave;
  * `initCanvas` pushes no snapshot;
  * `loadDrawing` treats such a remote document as a failure and falls back
    to the cache (see "## Findings").
* Releasing the select tool after a drag pushes no history snapshot.
* Dragging a pen stroke moves only its `x`/`y` box: `{...element, x, y}` keeps
  the `points` (`Elements.MovedTo`), which `drawElement` uses to draw it. The
  stroke is then hit at its new place but drawn at its old one.
* A page opened without an id runs `initCanvas` from both `onLoad` and
  `onReady`, so it starts with two identical snapshots
  (`Whiteboard.CanvasPage.OpenWithoutId`).
* `selectTool` does not reset `isDrawing`.
* The older page appends a new record without checking whether its
  timestamp id is already cached (`Persistence.AppendIsShadowed`).
* On the server, a failed file write still leaves the bytes in memory, so a
  later get serves them although the post answered 500
  (`DrawingServer.FailedWriteStillServes`).

Inputs the code reads from its environment become parameters:

* pointer coordinates, already relative to the canvas;
* the generated element ids, drawing ids, names and timestamps;
* the resolved outcome of each remote call (`SaveReply`, `LoadReply`);
* the user's answer to the clear-canvas dialog;
* whether the server's file write succeeds;
* the server's fresh uuid.

## Model

| member | source | states |
|---|---|---|
| Elements.MovedTo | miniprogram/pages/canvas/canvas-enhanced.js:460-466 | `{...element, x, y}`: the copy is the element with only its origin replaced; id, kind, size, style and points are kept |
| Elements.SeqMin | miniprogram/pages/canvas/canvas-enhanced.js:627-628 | `Math.min(...s)`: the result occurs in `s` and is at most every value |
| Elements.SeqMax | miniprogram/pages/canvas/canvas-enhanced.js:629-630 | `Math.max(...s)`: the result occurs in `s` and is at least every value |
| Elements.Evens | miniprogram/pages/canvas/canvas-enhanced.js:627 | the filter `i % 2 === 0`: half the length rounded up; entry `k` is `s[2k]` |
| Elements.Odds | miniprogram/pages/canvas/canvas-enhanced.js:628 | the filter `i % 2 === 1`: half the length rounded down; entry `k` is `s[2k+1]` |
| Elements.BoxFromDrag | miniprogram/pages/canvas/canvas-enhanced.js:592-602 | a rectangle, ellipse or diamond with non-negative extent; its x edges are the two x's and its y edges the two y's; style from the page |
| Elements.SegmentFromDrag | miniprogram/pages/canvas/canvas-enhanced.js:580-590 | a line or arrow anchored at the start point whose signed extent ends at the release point; no point list |
| Elements.LineToolLineIsNotDrawable | miniprogram/pages/canvas/canvas-enhanced.js:580-590 | a line-tool line, for the drag (0,0)-(30,40) and for every drag, is not drawable: it lacks the `points` that the `line` case of `drawElement` (:292-299) reads |
| Elements.SegmentWithPoints | miniprogram/pages/canvas/canvas-enhanced.js:580-590 | the intended line or arrow: the same segment, now carrying its two end points, and drawable |
| Elements.CommittedShapesAreDrawable | miniprogram/pages/canvas/canvas-enhanced.js:579-631 | boxes, pen strokes, arrows and the corrected segments are all drawable |
| Elements.StrokeBounds | miniprogram/pages/canvas/canvas-enhanced.js:627-630 | the pairwise fold's bounds are ordered and contain the first point |
| Elements.PenLine | miniprogram/pages/canvas/canvas-enhanced.js:619-631 | a `line` that keeps every point and the path's style; its box edges are the fold `StrokeBounds` |
| Elements.StrokeBoundsAreMinMax | miniprogram/pages/canvas/canvas-enhanced.js:627-630 | the pairwise fold equals min and max over the even and the odd indices, as the source computes them |
| Elements.PenLineIsBoundingBox | miniprogram/pages/canvas/canvas-enhanced.js:619-631 | every x and y of the stroke lies in the element's box; its edges are the min and max x and y |
| Elements.TextLabel | miniprogram/pages/canvas/canvas-enhanced.js:646-654 | a text element with the given text at the input location, in the page's stroke colour and font size |
| Elements.TrimStart | miniprogram/pages/canvas/canvas-enhanced.js:644 | drops exactly the leading white space: a suffix, all removed characters white space, first kept one not |
| Elements.TrimEnd | miniprogram/pages/canvas/canvas-enhanced.js:644 | drops exactly the trailing white space: a prefix, all removed characters white space, last kept one not |
| Elements.IsJsSpace | miniprogram/pages/canvas/canvas-enhanced.js:644 | the white space `trim()` removes: it includes space, tab, CR and LF, and never a letter or digit |
| Elements.Trim | miniprogram/pages/canvas/canvas-enhanced.js:644 | `trim()`: the result is the part of the input between a white-space prefix and a white-space suffix; it neither starts nor ends with white space; it is empty iff the input is all white space |
| Elements.TrimIsIdempotent | miniprogram/pages/canvas/canvas-enhanced.js:644 | trimming twice equals trimming once |
| Geometry.EllipseDegenerateAndCentre | miniprogram/pages/canvas/canvas-enhanced.js:420-425 | a zero-radius ellipse is never hit; a non-degenerate ellipse always contains its centre |
| Geometry.IsPointInElement | miniprogram/pages/canvas/canvas-enhanced.js:415-437 | a hit on an element tested by its stored box (every kind but ellipse and text) needs a non-negative width and height; a zero-width or zero-height ellipse is never hit; text is hit only within the fixed 100-wide range from its x, at or above its baseline |
| Geometry.TopmostIndex | miniprogram/pages/canvas/canvas-enhanced.js:404-413 | the index found hits the point and no later element does; None iff no element hits |
| Geometry.Topmost | miniprogram/pages/canvas/canvas-enhanced.js:404-413 | the element found, if any, contains the point |
| Geometry.TopmostIsAHit | miniprogram/pages/canvas/canvas-enhanced.js:404-413 | the element found is in the document and contains the point; nothing is found iff no element contains it |
| Geometry.LaterOverlapWins | miniprogram/pages/canvas/canvas-enhanced.js:404-413 | when two elements contain the point, the topmost index is at or after the later one |
| Geometry.SegmentHit | miniprogram/pages/canvas/canvas-enhanced.js:426-435 | a line or arrow is hit iff its signed width and height are non-negative and the point is in its box |
| Geometry.EllipseHitInsideBox | miniprogram/pages/canvas/canvas-enhanced.js:420-425 | an ellipse hit with positive extent lies inside the ellipse's box |
| Geometry.EllipseCornerIsOutside | miniprogram/pages/canvas/canvas-enhanced.js:420-425 | a concrete case: the ellipse contains its centre but not a corner point inside its box |
| Geometry.HitIsTranslationInvariant | miniprogram/pages/canvas/canvas-enhanced.js:415-437 | moving the element and the point by the same offset keeps the hit result |
| Document.RemoveId | miniprogram/pages/canvas/canvas-enhanced.js:442 | `filter(e => e.id !== id)`: the survivors are exactly the elements with another id; a shorter list iff the id occurred |
| Document.RemoveIdAppend | miniprogram/pages/canvas/canvas-enhanced.js:442 | the filter distributes over concatenation, so survivors keep their order |
| Document.AppendDrawable | miniprogram/pages/canvas/canvas-enhanced.js:605-608 | appending keeps the document drawable iff the new element is drawable |
| Document.RemoveIdDrawable | miniprogram/pages/canvas/canvas-enhanced.js:442-445 | a filter keeps a drawable document drawable, and removing the id of every undrawable element makes it drawable |
| Document.MoveId | miniprogram/pages/canvas/canvas-enhanced.js:460-469 | the drag map keeps the length |
| Document.MoveIdMovesOnlyTheSelected | miniprogram/pages/canvas/canvas-enhanced.js:460-469 | every element changes at most its origin; those with the id get the new origin; all others are unchanged |
| Document.MoveIdDrawable | miniprogram/pages/canvas/canvas-enhanced.js:460-471 | a drag changes no element's drawability |
| History.Kept | miniprogram/pages/canvas/canvas-enhanced.js:93 | `slice(0, historyIndex + 1)`: a prefix whose length is the cursor plus one, clamped to the list |
| History.Push | miniprogram/pages/canvas/canvas-enhanced.js:92-99 | the result is again a reachable timeline |
| History.PushSpec | miniprogram/pages/canvas/canvas-enhanced.js:92-99 | the snapshot is last; before it come the newest kept entries, at most 50 in all; the cursor is the last entry, or one past it after an overflow |
| History.Undo | miniprogram/pages/canvas/canvas-enhanced.js:102-112 | steps back when the cursor is above 0, onto an existing entry; otherwise no change |
| History.Redo | miniprogram/pages/canvas/canvas-enhanced.js:115-125 | steps forward when the cursor is before the last entry, onto an existing entry; otherwise no change |
| History.UndoThenRedo | miniprogram/pages/canvas/canvas-enhanced.js:102-125 | redo right after undo restores the timeline |
| History.PushAfterUndoPrunesRedo | miniprogram/pages/canvas/canvas-enhanced.js:92-99 | a push after an undo drops the redo branch and leaves nothing to redo |
| History.PushEvictsOldest | miniprogram/pages/canvas/canvas-enhanced.js:92-99 | a push onto a full list evicts exactly the oldest entry; the cursor becomes 50 |
| History.UndoAfterOverflow | miniprogram/pages/canvas/canvas-enhanced.js:92-112 | after an overflowing push, undo lands on the snapshot just pushed and redo is impossible |
| History.ThreeEditsTwoUndos | miniprogram/pages/canvas/canvas-enhanced.js:92-112 | three pushes then two undos restore the first snapshot; a third undo changes nothing |
| Persistence.FindIndex | miniprogram/pages/canvas/canvas-enhanced.js:183 | `findIndex`: the index carries the id and no earlier record does; None iff no record does |
| Persistence.FindRecord | miniprogram/pages/canvas/canvas-enhanced.js:142 | `find`: the FIRST cached record with the id (no earlier record carries it); None iff there is none |
| Persistence.Upsert | miniprogram/pages/canvas/canvas-enhanced.js:183-188 | replaces the first record with the id and keeps the rest; without one, appends |
| Persistence.FindIndexIsFirst | miniprogram/pages/canvas/canvas-enhanced.js:183 | the first index carrying the id is the one found |
| Persistence.UpsertThenFind | miniprogram/pages/canvas/canvas-enhanced.js:183-188 | after an upsert, a find on the id returns the record written |
| Persistence.UpsertKeepsOthers | miniprogram/pages/canvas/canvas-enhanced.js:183-188 | an upsert does not change what any other id finds |
| Persistence.AppendThenFind | miniprogram/pages/canvas/canvas.js:69-72 | appending a record with a new id makes it the one found |
| Persistence.AppendIsShadowed | miniprogram/pages/canvas/canvas.js:69-72 | appending a record whose id is cached leaves the older record the one found |
| Whiteboard.ShapeFromDrag | miniprogram/pages/canvas/canvas-enhanced.js:579-603 | the shape tools' element: a normalised box with the fill for box shapes, a signed segment without points for lines and arrows; drawable iff it is not a line |
| Whiteboard.CorrectedShapeFromDrag | miniprogram/pages/canvas/canvas-enhanced.js:579-603 | the intended builder: always drawable |
| Whiteboard.CorrectedCommitKeepsDocumentDrawable | miniprogram/pages/canvas/canvas-enhanced.js:579-609 | with the intended builder a shape commit keeps a drawable document drawable, where the line tool's as written does not; box and hit test are unchanged |
| Whiteboard.ToggledFill | miniprogram/pages/canvas/canvas-enhanced.js:725-732 | a transparent fill becomes the stroke colour and any other fill transparent; the rest of the style is kept |
| Whiteboard.ToggleFillTwice | miniprogram/pages/canvas/canvas-enhanced.js:725-732 | from a transparent fill or one equal to the stroke colour, toggling twice restores the style |
| Whiteboard.CanvasPage.constructor | miniprogram/pages/canvas/canvas-enhanced.js:5-50 | the initial `data`: no id, empty document and history (cursor -1), default style, pen tool, nothing pending |
| Whiteboard.CanvasPage.SaveHistory | miniprogram/pages/canvas/canvas-enhanced.js:92-99 | the new history and cursor are `Push` of the old ones with the current document |
| Whiteboard.CanvasPage.Redraw | miniprogram/pages/canvas/canvas-enhanced.js:72-79 | `redrawCanvas` gets through iff every element is drawable |
| Whiteboard.CanvasPage.InitCanvas | miniprogram/pages/canvas/canvas-enhanced.js:65-70 | a snapshot of the unchanged document is pushed, unless the redraw before it throws |
| Whiteboard.CanvasPage.OnReady | miniprogram/pages/canvas/canvas-enhanced.js:61-63 | the same as `initCanvas` |
| Whiteboard.CanvasPage.OpenWithoutId | miniprogram/pages/canvas/canvas-enhanced.js:52-63 | a page opened without an id snapshots its unchanged document twice, once for `onLoad` and once for `onReady` |
| Whiteboard.CanvasPage.Undo | miniprogram/pages/canvas/canvas-enhanced.js:102-112 | the cursor moves as `History.Undo`; when it moves, the document becomes that snapshot and the selection is cleared; otherwise nothing changes |
| Whiteboard.CanvasPage.Redo | miniprogram/pages/canvas/canvas-enhanced.js:115-125 | the cursor moves as `History.Redo`; when it moves, the document becomes that snapshot and the selection is cleared; otherwise nothing changes |
| Whiteboard.CanvasPage.FindElementAt | miniprogram/pages/canvas/canvas-enhanced.js:404-413 | the backward scan returns `Topmost` of the document at the point |
| Whiteboard.CanvasPage.AutoSave | miniprogram/pages/canvas/canvas-enhanced.js:746-753 | one save is pending, however many were before |
| Whiteboard.CanvasPage.RecordEdit | miniprogram/pages/canvas/canvas-enhanced.js:607-609 | `saveHistory`, `redrawCanvas`, `autoSave`: a snapshot is pushed; a save is scheduled iff the document is drawable, else the pending flag is kept |
| Whiteboard.CanvasPage.EraseAt | miniprogram/pages/canvas/canvas-enhanced.js:439-448 | with a hit, every element with the topmost hit's id is removed and a snapshot pushed; a save is scheduled iff what is left is drawable; no hit, no change |
| Whiteboard.CanvasPage.PickAt | miniprogram/pages/canvas/canvas-enhanced.js:359-373 | the topmost hit is selected and grabbed: start point and offset to its origin recorded; no hit clears the selection only |
| Whiteboard.CanvasPage.TouchStart | miniprogram/pages/canvas/canvas-enhanced.js:342-402 | per tool: text opens the input at the point; select picks; eraser erases as `EraseAt`; shapes and pen record the start point; pen starts a one-point path in the current style; all else unchanged |
| Whiteboard.CanvasPage.HitPress | miniprogram/pages/canvas/canvas-enhanced.js:359-378 | the select and eraser presses: `hit` is the topmost element; each tool's effect then follows `PickAt` or `EraseAt` |
| Whiteboard.CanvasPage.OpenTextInput | miniprogram/pages/canvas/canvas-enhanced.js:349-356 | the text input is shown, empty, at the point |
| Whiteboard.CanvasPage.BeginDraw | miniprogram/pages/canvas/canvas-enhanced.js:381-401 | the drag starts at the point; only the pen starts a path |
| Whiteboard.CanvasPage.TouchMove | miniprogram/pages/canvas/canvas-enhanced.js:450-557 | a select drag moves the selected id so the grab offset is kept; a stroke in progress gets the point appended; text, shape previews and idle moves change nothing |
| Whiteboard.CanvasPage.DragSelected | miniprogram/pages/canvas/canvas-enhanced.js:453-472 | the document becomes `MoveId` with origin = point minus grab offset |
| Whiteboard.CanvasPage.ExtendPath | miniprogram/pages/canvas/canvas-enhanced.js:528-541 | the path in progress gains the point at its end; its style is kept |
| Whiteboard.CanvasPage.CommitShape | miniprogram/pages/canvas/canvas-enhanced.js:579-609 | the dragged shape is appended, a snapshot pushed and drawing stopped; a save is scheduled iff the document is drawable, so never after a line-tool line |
| Whiteboard.CanvasPage.CommitStroke | miniprogram/pages/canvas/canvas-enhanced.js:619-637 | the stroke is appended as `PenLine`, a snapshot pushed, the path cleared; a save is scheduled iff the document is drawable |
| Whiteboard.CanvasPage.TouchEnd | miniprogram/pages/canvas/canvas-enhanced.js:559-641 | per tool: text no-op; select stops dragging with no snapshot; a shape drag commits; a pen path with two or more points commits; a shorter one is dropped; a commit schedules a save iff the document is drawable |
| Whiteboard.CanvasPage.CommitText | miniprogram/pages/canvas/canvas-enhanced.js:645-664 | the label is appended at the input location, the input is hidden and cleared, a snapshot pushed; a save is scheduled iff the document is drawable |
| Whiteboard.CanvasPage.OnTextInputConfirm | miniprogram/pages/canvas/canvas-enhanced.js:643-671 | the input always closes; a non-empty trimmed text is committed as a label as in `CommitText`, an all-white-space one changes nothing else |
| Whiteboard.CanvasPage.OnTextInputCancel | miniprogram/pages/canvas/canvas-enhanced.js:673-678 | the input is hidden and cleared |
| Whiteboard.CanvasPage.ClearCanvas | miniprogram/pages/canvas/canvas-enhanced.js:680-692 | after confirming: an empty document, no selection, an empty snapshot pushed; no autosave; declining changes nothing |
| Whiteboard.CanvasPage.SelectTool | miniprogram/pages/canvas/canvas-enhanced.js:694-706 | the tool is switched and the selection cleared |
| Whiteboard.CanvasPage.SelectColor | miniprogram/pages/canvas/canvas-enhanced.js:709-714 | only the stroke colour of the style changes |
| Whiteboard.CanvasPage.SelectStrokeWidth | miniprogram/pages/canvas/canvas-enhanced.js:717-722 | only the stroke width of the style changes |
| Whiteboard.CanvasPage.ToggleFill | miniprogram/pages/canvas/canvas-enhanced.js:725-732 | the style becomes `ToggledFill` of the old one |
| Whiteboard.CanvasPage.DeleteSelected | miniprogram/pages/canvas/canvas-enhanced.js:735-743 | with a selection: its id is removed and a snapshot pushed; a save is scheduled iff what is left is drawable; the selection is cleared either way |
| Whiteboard.CanvasPage.StartSave | miniprogram/pages/canvas/canvas-enhanced.js:159-173 | a save already in flight makes the call return at once; otherwise the record is captured under the current id, or the timestamp id, which the drawing then adopts |
| Whiteboard.CanvasPage.FinishSave | miniprogram/pages/canvas/canvas-enhanced.js:174-205 | by reply: a returned id replaces the record's id and the drawing id; in every case the record is upserted into the cache and the guard released |
| Whiteboard.CanvasPage.SaveTimerFired | miniprogram/pages/canvas/canvas-enhanced.js:750-752 | the pending save is consumed and starts unless one is in flight, capturing the current document |
| Whiteboard.CanvasPage.OnUnload | miniprogram/pages/canvas/canvas-enhanced.js:81-89 | the pending timer is cancelled; a save starts iff the document is non-empty and none is in flight |
| Whiteboard.CanvasPage.LoadDrawing | miniprogram/pages/canvas/canvas-enhanced.js:127-157 | a drawable remote document: it and its style are adopted with the id and a snapshot; otherwise the first cached record replaces document and style, with a snapshot if it is drawable and an aborted load if not; with no cached record, no snapshot and the remote document (or nothing) stays |
| Whiteboard.CanvasPage.OnLoad | miniprogram/pages/canvas/canvas-enhanced.js:52-59 | with an id: it is adopted and every field ends as in `LoadDrawing`; without one: document, style and id unchanged and a snapshot pushed if the document is drawable |
| Legacy.MoveSegment | miniprogram/pages/canvas/canvas.js:189-199 | a two-point `line` from the start point to the point, with non-negative extent over both points, in the page's style |
| Legacy.MoveSegmentBoxIsSymmetric | miniprogram/pages/canvas/canvas.js:195-198 | the segment's box does not depend on the direction of the move |
| Legacy.LegacyPage.constructor | miniprogram/pages/canvas/canvas.js:4-30 | the initial `data`: no id, empty document, width-1 style, not drawing |
| Legacy.LegacyPage.LoadDrawing | miniprogram/pages/canvas/canvas.js:40-49 | the first cached record with the id replaces document and style; none, no change |
| Legacy.LegacyPage.OnLoad | miniprogram/pages/canvas/canvas.js:32-37 | with an id: it is adopted and the first cached record replaces document and style, or nothing else changes; without one nothing changes |
| Legacy.LegacyPage.SaveDrawing | miniprogram/pages/canvas/canvas.js:52-79 | the record takes the drawing id or the timestamp id; with an id it is upserted, without one appended and the id adopted |
| Legacy.LegacyPage.TouchStart | miniprogram/pages/canvas/canvas.js:168-178 | drawing starts at the point |
| Legacy.LegacyPage.TouchMove | miniprogram/pages/canvas/canvas.js:181-217 | while drawing, one `MoveSegment` is appended and the point becomes the new start; otherwise nothing |
| Legacy.LegacyPage.TouchEnd | miniprogram/pages/canvas/canvas.js:220-223 | drawing stops and the drawing is saved as `SaveDrawing` |
| Legacy.LegacyPage.ClearCanvas | miniprogram/pages/canvas/canvas.js:226-239 | after confirming the document is empty; declining changes nothing |
| Legacy.LegacyPage.SaveThenLoad | miniprogram/pages/canvas/canvas.js:40-79 | after the save the page has an id, and the cache's first record under it is exactly the saved record (the old id or the fresh timestamp, the name, document, style and time); loading that id restores the same document and style, given a new timestamp id |
| I18n.Truthy | miniprogram/utils/i18n.js:160 | a present, non-empty string passes; anything else is absent |
| I18n.Entry | miniprogram/utils/i18n.js:166 | a table entry counts iff it exists and is non-empty |
| I18n.StoredLanguage | miniprogram/utils/i18n.js:138-145 | the stored language when present and non-empty, else zh-CN; never empty |
| I18n.CurrentLanguage | miniprogram/utils/i18n.js:160 | the requested language when given and non-empty, else the stored one |
| I18n.T | miniprogram/utils/i18n.js:159-167 | the entry of the current language, else the zh-CN entry, else the key; an unknown language skips to zh-CN |
| I18n.TranslationIsNeverEmpty | miniprogram/utils/i18n.js:159-167 | a non-empty key never translates to the empty string |
| I18n.TranslationComesFromATable | miniprogram/utils/i18n.js:159-167 | every result is the key, a zh-CN entry, or an entry of the current language |
| I18n.UnknownLanguageActsAsDefault | miniprogram/utils/i18n.js:161-165 | a language without a table translates exactly as zh-CN |
| I18n.OmittedLanguageDefaultsToChinese | miniprogram/utils/i18n.js:138-145 | no language and nothing (or an empty string) stored means zh-CN |
| I18n.OmittedLanguageMeansStored | miniprogram/utils/i18n.js:160 | no language means the stored language |
| DrawingServer.Status | server/server.js:36-132 | 200 exactly for saved, body and deleted replies; 400, 413, 404 and 500 exactly for their errors |
| DrawingServer.Post | server/server.js:36-72 | a missing or empty body gives 400 and a body over 50 MiB gives 413, both changing nothing; otherwise the memory entry is set, and a failed write gives 500 |
| DrawingServer.Get | server/server.js:76-108 | the memory copy; else the file, copied into memory; else 404; a body is returned iff either tier has the id |
| DrawingServer.Delete | server/server.js:111-132 | the id leaves both tiers, everything else stays, and the reply is success even without a file |
| DrawingServer.PostThenGet | server/server.js:36-100 | a successful post and a get of the returned id yield the posted bytes and change nothing |
| DrawingServer.FailedWriteStillServes | server/server.js:57-71 | after a failed file write, a get still returns the bytes from memory |
| DrawingServer.RejectedPostChangesNothing | server/server.js:41-54 | a rejected post leaves both tiers unchanged and answers 400 or 413 |
| DrawingServer.GetIsStable | server/server.js:81-96 | with coherent tiers, a get keeps them coherent and changes no later get's reply |
| DrawingServer.DeleteIsIdempotent | server/server.js:111-124 | deleting twice equals deleting once; a get of the deleted id is 404 |
| DrawingServer.HandlersKeepCoherence | server/server.js:36-132 | with a fresh uuid, every handler keeps memory in agreement with the files |
| DrawingServer.DrawingStore.constructor | server/server.js:26-27 | a fresh server: empty memory, existing files |
| DrawingServer.DrawingStore.HandlePost | server/server.js:36-72 | the new tiers and the reply are those of `Post` |
| DrawingServer.DrawingStore.HandleGet | server/server.js:76-108 | the new tiers and the reply are those of `Get` |
| DrawingServer.DrawingStore.HandleDelete | server/server.js:111-132 | the new tiers and the reply are those of `Delete` |

## Left out

- Rendering draws nothing in the model: `redrawCanvas`, `drawElement`, `drawArrow`, the shape previews in `touchMove`, export and save-to-album. What the model keeps is whether `redrawCanvas` throws (`Redraw`, from `Drawable`), because a throw skips the rest of the handler. The redraws that end `undo`, `redo`, `touchStart`, `touchMove` and `selectTool` are last in their handlers, so their throws change no state.
- Only the missing point list of a line-tool line makes `drawElement` throw in the model. Elements are typed, so a record with an unknown type or missing fields cannot occur.
- Timers are not modelled. The 1-second autosave debounce and the 100 ms `initCanvas` delay become the `pendingSave` flag and explicit `SaveTimerFired` and `InitCanvas` calls. For a page opened with an id, the snapshot of `onReady`'s timer can land before or after the one the load pushes. The model leaves that order to the caller, which calls `OnReady` and `OnLoad` in either order.
- Asynchrony is split. `saveDrawing` becomes `StartSave` and `FinishSave` around the awaited remote call; `loadDrawing` takes the call's resolved outcome. Interleavings other than a handler running between the two halves are not modelled; one effect of such a handler on the cached record is not captured (see `Whiteboard.CanvasPage.FinishSave` below).
- The `loading` flag, toasts, the colour and width picker flags and `shareDrawing` are not modelled: they are pure UI.
- The network, JSON cloning and `api.js` are not part of this model; JSON cloning only copies values. `index.js` and `app.js` are not part of this model either.
- Only the handful of `appState` fields the handlers read or write are kept: stroke colour and width, fill colour, font size. The others are never used by the modelled code.
- Tools are a closed datatype. An unknown tool string behaves like the pen in the source and is not represented.
- Ids are `Option<string>`, so an empty-string id is not treated as falsy as JavaScript would treat it.
- Local-storage records always carry `elements` and `appState`, so the `|| []` defaults of the two cache loaders never apply. Remote documents may lack either field (`RemoteDrawing`).
- Line and arrow elements from the shape tools carry no point list, as in the source. Odd-length point lists cannot arise from the handlers, and `PenLine` is not specialised for them.
- Coordinates are real numbers, not IEEE doubles. The ellipse test's zero-radius NaN case is written out as "never hit".
- History.Push: its own contract only keeps the timeline reachable. The exact resulting entries and cursor are the lemma `History.PushSpec`.
- Document.MoveId: its own contract is the length. What the drag does to each element is the lemma `Document.MoveIdMovesOnlyTheSelected`.
- Elements.PenLine: the box is stated through the pairwise fold `StrokeBounds`. The min/max reading is `Elements.StrokeBoundsAreMinMax` and `Elements.PenLineIsBoundingBox`.
- Whiteboard.CanvasPage.EraseAt: like the source, it does not clear a selection whose element was erased.
- Whiteboard.CanvasPage.FinishSave: the cached record carries the document and style captured by `StartSave`. In the source `drawingData.appState` (canvas-enhanced.js:167) is a reference to the live `this.data.appState`, and the path-key `setData` calls of `selectColor`, `selectStrokeWidth` and `toggleFill` (:709-732) write into that object. A style change made while the remote call is pending can therefore reach the locally cached record (:183-188), although the remote copy was serialised before the await. The model does not capture this aliasing.
- Whiteboard.CanvasPage.FinishSave: the server mints a new uuid for every post, so each remote save of the same drawing upserts under a new id and the cache accumulates records. This is modelled as the reply's id and not otherwise reconciled.
- Legacy.LegacyPage: `selectTool` only writes to the console, so it is not modelled.
- DrawingServer.Post: the body parser's own 50 MB limit and non-binary content types are folded into the `body` parameter. A missing body is `None`.
- DrawingServer.Get: the source answers 404 for every file read error, not only a missing file, and the model's `disk` holds exactly the readable files. The outer 500 branch catches only failures in writing the reply, which the model does not have, so it is unreachable in the model.
- DrawingServer: path handling is not modelled (an id containing path separators), nor the health endpoint or server start-up.
- I18n: `setLanguage`, which writes storage, is not modelled. The translation tables are a parameter rather than the literal ones, requiring only that a zh-CN table exists.

## Findings

| source | as written | input that shows it | evidently intended | confidence | as-written member | corrected member |
|---|---|---|---|---|---|---|
| miniprogram/pages/canvas/canvas-enhanced.js:580-590 | a line-tool line is built without `points`, while the `line` case of `drawElement` (:292-299) reads `points[0]`; every later redraw throws, so no autosave follows any edit while the line is in the document | line tool, press (0, 0), release (30, 40): the snapshot is pushed, the redraw throws, and the save is never scheduled | the line carries its end points `[startX, startY, x, y]`, is drawn, and the edit is autosaved | high; not executed | Elements.LineToolLineIsNotDrawable | Whiteboard.CorrectedCommitKeepsDocumentDrawable |

The page model keeps the builder as written (`Whiteboard.ShapeFromDrag`), so
its handlers show the lost autosaves. The corrected builder
`Whiteboard.CorrectedShapeFromDrag` gives the same box and hit test, and it
keeps every drawable document drawable.

