/**
 * The whiteboard's document data: the element variant, the style defaults that
 * new elements take, the tools, and the pure constructors that turn a finished
 * gesture into an element.
 */
module Elements {
  import opened Wrappers

  /** Kinds drawn as a normalised bounding box. */
  datatype BoxShape = Rectangle | Ellipse | Diamond

  /** Kinds whose width and height are signed (end minus start). */
  datatype SegmentShape = Line | Arrow

  /**
   * One drawable element.  `Box` is a rectangle, ellipse or diamond; `Segment`
   * is a line or arrow (`points` is present only for freehand strokes); `Label`
   * is a text element anchored at its baseline origin.
   */
  datatype Element =
    | Box(id: string, boxShape: BoxShape, strokeColor: string, strokeWidth: real,
          backgroundColor: string, x: real, y: real, width: real, height: real)
    | Segment(id: string, segmentShape: SegmentShape, strokeColor: string, strokeWidth: real,
              x: real, y: real, width: real, height: real, points: Option<seq<real>>)
    | Label(id: string, text: string, strokeColor: string, fontSize: real, x: real, y: real)

  /** The style defaults of the page that new elements copy. */
  datatype AppState = AppState(strokeColor: string, strokeWidth: real,
                               backgroundColor: string, fontSize: real)

  /** The element with its origin moved to `(nx, ny)`; shape, size and style are kept. */
  function MovedTo(e: Element, nx: real, ny: real): (m: Element)
    ensures m.x == nx && m.y == ny && m.id == e.id
    ensures m == e.(x := nx, y := ny)
  {
    match e
    case Box(id, s, c, w, b, _, _, width, height) => Box(id, s, c, w, b, nx, ny, width, height)
    case Segment(id, s, c, w, _, _, width, height, p) => Segment(id, s, c, w, nx, ny, width, height, p)
    case Label(id, t, c, f, _, _) => Label(id, t, c, f, nx, ny)
  }

  /** The sentinel background colour that means "not filled". */
  const Transparent: string := "transparent"

  /** The tools of the toolbar. */
  datatype Tool =
    | SelectTool
    | PenTool
    | BoxTool(box: BoxShape)
    | SegmentTool(segment: SegmentShape)
    | TextTool
    | EraserTool
  {
    /** The five tools that draw a shape from a press point to a release point. */
    predicate IsShapeTool() { BoxTool? || SegmentTool? }
  }

  /** A freehand stroke in progress: flattened x,y pairs and the style captured at pointer-down. */
  datatype Path = Path(points: seq<real>, strokeColor: string, strokeWidth: real)

  function Abs(a: real): real { if a < 0.0 then -a else a }
  function Min(a: real, b: real): real { if a <= b then a else b }
  function Max(a: real, b: real): real { if a >= b then a else b }

  /** Smallest value of a non-empty sequence (JavaScript's `Math.min(...s)`). */
  function SeqMin(s: seq<real>): (r: real)
    requires |s| > 0
    ensures r in s
    ensures forall v :: v in s ==> r <= v
  {
    if |s| == 1 then s[0]
    else
      var m := SeqMin(s[1..]);
      assert s == [s[0]] + s[1..];
      if s[0] <= m then s[0] else m
  }

  /** Largest value of a non-empty sequence (JavaScript's `Math.max(...s)`). */
  function SeqMax(s: seq<real>): (r: real)
    requires |s| > 0
    ensures r in s
    ensures forall v :: v in s ==> v <= r
  {
    if |s| == 1 then s[0]
    else
      var m := SeqMax(s[1..]);
      assert s == [s[0]] + s[1..];
      if s[0] >= m then s[0] else m
  }

  /** The values at even indices: the x coordinates of a flattened point list. */
  function Evens(s: seq<real>): (r: seq<real>)
    ensures |r| == (|s| + 1) / 2
    ensures forall k :: 0 <= k < |r| ==> r[k] == s[2 * k]
  {
    if |s| <= 1 then s
    else
      var rest := Evens(s[2..]);
      assert forall k :: 1 <= k < |rest| + 1 ==> s[2 * k] == s[2..][2 * (k - 1)];
      [s[0]] + rest
  }

  /** The values at odd indices: the y coordinates of a flattened point list. */
  function Odds(s: seq<real>): (r: seq<real>)
    ensures |r| == |s| / 2
    ensures forall k :: 0 <= k < |r| ==> r[k] == s[2 * k + 1]
  {
    if |s| <= 1 then []
    else
      var rest := Odds(s[2..]);
      assert forall k :: 1 <= k < |rest| + 1 ==> s[2 * k + 1] == s[2..][2 * (k - 1) + 1];
      [s[1]] + rest
  }

  /**
   * The element committed when a rectangle, ellipse or diamond drag ends:
   * the box spanned by the two points, with non-negative extent.
   */
  function BoxFromDrag(id: string, shape: BoxShape, style: AppState,
                       startX: real, startY: real, endX: real, endY: real): (e: Element)
    ensures e.Box? && e.id == id && e.boxShape == shape
    ensures e.strokeColor == style.strokeColor && e.strokeWidth == style.strokeWidth
    ensures e.backgroundColor == style.backgroundColor
    ensures e.width >= 0.0 && e.height >= 0.0
    ensures {e.x, e.x + e.width} == {startX, endX}
    ensures {e.y, e.y + e.height} == {startY, endY}
  {
    Box(id, shape, style.strokeColor, style.strokeWidth, style.backgroundColor,
        Min(startX, endX), Min(startY, endY), Abs(endX - startX), Abs(endY - startY))
  }

  /**
   * The element committed when a line or arrow drag ends: anchored at the
   * start point, with width and height signed so that the end point is
   * `(x + width, y + height)`.  Such an element carries no point list.
   */
  function SegmentFromDrag(id: string, shape: SegmentShape, style: AppState,
                           startX: real, startY: real, endX: real, endY: real): (e: Element)
    ensures e.Segment? && e.id == id && e.segmentShape == shape && e.points.None?
    ensures e.strokeColor == style.strokeColor && e.strokeWidth == style.strokeWidth
    ensures e.x == startX && e.y == startY
    ensures e.x + e.width == endX && e.y + e.height == endY
  {
    Segment(id, shape, style.strokeColor, style.strokeWidth,
            startX, startY, endX - startX, endY - startY, None)
  }

  /**
   * Whether `drawElement` can render the element without throwing.  Its
   * `line` case reads `points[0]` off every line, and a line committed by
   * the line tool has no point list, so reading it throws a TypeError.
   */
  predicate Drawable(e: Element) {
    !(e.Segment? && e.segmentShape == Line && e.points.None?)
  }

  /**
   * A line-tool line is never drawable, whatever the drag: here the press at
   * (0, 0) and the release at (30, 40).
   */
  lemma LineToolLineIsNotDrawable(id: string, style: AppState)
    ensures !Drawable(SegmentFromDrag(id, Line, style, 0.0, 0.0, 30.0, 40.0))
    ensures forall sx, sy, ex, ey :: !Drawable(SegmentFromDrag(id, Line, style, sx, sy, ex, ey))
  {
  }

  /**
   * The evidently intended line-tool element: the same segment carrying its
   * two end points as the point list that `drawElement` walks.
   */
  function SegmentWithPoints(id: string, shape: SegmentShape, style: AppState,
                             startX: real, startY: real, endX: real, endY: real): (e: Element)
    ensures Drawable(e)
    ensures e.Segment? && e.points == Some([startX, startY, endX, endY])
    ensures e.(points := None) == SegmentFromDrag(id, shape, style, startX, startY, endX, endY)
  {
    Segment(id, shape, style.strokeColor, style.strokeWidth,
            startX, startY, endX - startX, endY - startY, Some([startX, startY, endX, endY]))
  }

  /** Every shape the corrected builders commit is drawable, and a pen stroke always was. */
  lemma CommittedShapesAreDrawable(id: string, box: BoxShape, seg: SegmentShape, style: AppState,
                                   sx: real, sy: real, ex: real, ey: real, path: Path)
    requires |path.points| >= 2
    ensures Drawable(BoxFromDrag(id, box, style, sx, sy, ex, ey))
    ensures Drawable(SegmentWithPoints(id, seg, style, sx, sy, ex, ey))
    ensures Drawable(PenLine(id, path))
    ensures seg == Arrow ==> Drawable(SegmentFromDrag(id, seg, style, sx, sy, ex, ey))
  {
  }

  /** The extreme coordinates of a point list. */
  datatype Bounds = Bounds(minX: real, minY: real, maxX: real, maxY: real)

  /**
   * The bounds of a flattened point list `[x0, y0, x1, y1, ...]`, folded
   * pair by pair from the front; `StrokeBoundsAreMinMax` shows this is the
   * minimum and maximum over the even and the odd indices.
   */
  function StrokeBounds(points: seq<real>): (b: Bounds)
    requires |points| >= 2
    ensures b.minX <= points[0] <= b.maxX && b.minY <= points[1] <= b.maxY
    decreases |points|
  {
    if |points| == 2 then Bounds(points[0], points[1], points[0], points[1])
    else if |points| == 3 then
      Bounds(Min(points[0], points[2]), points[1], Max(points[0], points[2]), points[1])
    else
      var b := StrokeBounds(points[2..]);
      Bounds(Min(points[0], b.minX), Min(points[1], b.minY), Max(points[0], b.maxX), Max(points[1], b.maxY))
  }

  /**
   * The `line` committed when a freehand stroke of at least two points ends:
   * it keeps every point, and its box runs from the smallest to the largest
   * x (even indices) and y (odd indices).
   */
  function PenLine(id: string, path: Path): (e: Element)
    requires |path.points| >= 2
    ensures e.Segment? && e.id == id && e.segmentShape == Line && e.points == Some(path.points)
    ensures e.strokeColor == path.strokeColor && e.strokeWidth == path.strokeWidth
    ensures var b := StrokeBounds(path.points);
      e.x == b.minX && e.y == b.minY && e.x + e.width == b.maxX && e.y + e.height == b.maxY
  {
    var b := StrokeBounds(path.points);
    Segment(id, Line, path.strokeColor, path.strokeWidth,
            b.minX, b.minY, b.maxX - b.minX, b.maxY - b.minY, Some(path.points))
  }

  /** The minimum of a sequence with one more value in front. */
  lemma SeqMinCons(a: real, s: seq<real>)
    requires |s| > 0
    ensures SeqMin([a] + s) == Min(a, SeqMin(s)) && SeqMax([a] + s) == Max(a, SeqMax(s))
  {
    assert ([a] + s)[1..] == s;
  }

  /** The pairwise fold computes JavaScript's `Math.min`/`Math.max` over the even and the odd indices. */
  lemma {:induction false} StrokeBoundsAreMinMax(points: seq<real>)
    requires |points| >= 2
    ensures StrokeBounds(points) ==
              Bounds(SeqMin(Evens(points)), SeqMin(Odds(points)), SeqMax(Evens(points)), SeqMax(Odds(points)))
    decreases |points|
  {
    var xs, ys := Evens(points), Odds(points);
    if |points| == 2 {
      assert xs == [points[0]] && ys == [points[1]];
    } else if |points| == 3 {
      assert xs == [points[0]] + [points[2]] && ys == [points[1]];
      SeqMinCons(points[0], [points[2]]);
    } else {
      var rest := points[2..];
      StrokeBoundsAreMinMax(rest);
      assert xs == [points[0]] + Evens(rest) && ys == [points[1]] + Odds(rest);
      SeqMinCons(points[0], Evens(rest));
      SeqMinCons(points[1], Odds(rest));
    }
  }

  /**
   * The stroke's box is the tightest one around its points: every x and y
   * coordinate lies inside it, and its edges are the smallest and largest x
   * and y, each of which is one of the points' coordinates (SeqMin, SeqMax).
   */
  lemma PenLineIsBoundingBox(id: string, path: Path)
    requires |path.points| >= 2
    ensures var e, xs, ys := PenLine(id, path), Evens(path.points), Odds(path.points);
      && (forall v :: v in xs ==> e.x <= v <= e.x + e.width)
      && (forall v :: v in ys ==> e.y <= v <= e.y + e.height)
      && e.x == SeqMin(xs) && e.x + e.width == SeqMax(xs)
      && e.y == SeqMin(ys) && e.y + e.height == SeqMax(ys)
  {
    StrokeBoundsAreMinMax(path.points);
  }

  /** The text element committed at the recorded input location. */
  function TextLabel(id: string, text: string, style: AppState, x: real, y: real): (e: Element)
    ensures e.Label? && e.id == id && e.text == text && e.x == x && e.y == y
    ensures e.strokeColor == style.strokeColor && e.fontSize == style.fontSize
  {
    Label(id, text, style.strokeColor, style.fontSize, x, y)
  }

  /** The characters ECMAScript's `String.prototype.trim` removes (white space and line terminators). */
  predicate IsJsSpace(c: char)
    ensures c == ' ' || c == '\t' || c == '\n' || c == '\r' ==> IsJsSpace(c)
    ensures IsJsSpace(c) ==> !('0' <= c <= '9' || 'a' <= c <= 'z' || 'A' <= c <= 'Z')
  {
    || c == ' ' || c == '\t' || c == '\n' || c == '\r'
    || c == '\U{000B}' || c == '\U{000C}' || c == '\U{00A0}' || c == '\U{1680}'
    || ('\U{2000}' <= c <= '\U{200A}')
    || c == '\U{2028}' || c == '\U{2029}' || c == '\U{202F}' || c == '\U{205F}'
    || c == '\U{3000}' || c == '\U{FEFF}'
  }

  function TrimStart(s: string): (r: string)
    ensures |r| <= |s| && r == s[|s| - |r|..]
    ensures forall k :: 0 <= k < |s| - |r| ==> IsJsSpace(s[k])
    ensures r != [] ==> !IsJsSpace(r[0])
  {
    if s != [] && IsJsSpace(s[0]) then TrimStart(s[1..]) else s
  }

  function TrimEnd(s: string): (r: string)
    ensures |r| <= |s| && r == s[..|r|]
    ensures forall k :: |r| <= k < |s| ==> IsJsSpace(s[k])
    ensures r != [] ==> !IsJsSpace(r[|r| - 1])
  {
    if s != [] && IsJsSpace(s[|s| - 1]) then TrimEnd(s[..|s| - 1]) else s
  }

  /** A prefix `r` of the suffix `t` of `s` lies between white space in `s` when it does in `t`. */
  lemma TrimIsInfix(s: string, t: string, r: string)
    requires |t| <= |s| && t == s[|s| - |t|..] && forall k :: 0 <= k < |s| - |t| ==> IsJsSpace(s[k])
    requires |r| <= |t| && r == t[..|r|] && forall k :: |r| <= k < |t| ==> IsJsSpace(t[k])
    ensures var i := |s| - |t|;
      && r == s[i..i + |r|]
      && (forall k :: 0 <= k < i ==> IsJsSpace(s[k]))
      && (forall k :: i + |r| <= k < |s| ==> IsJsSpace(s[k]))
  {
    var i := |s| - |t|;
    forall k | i + |r| <= k < |s|
      ensures IsJsSpace(s[k])
    {
      assert s[k] == t[k - i];
    }
  }

  /** `s.trim()`: the text with leading and trailing white space removed. */
  function Trim(s: string): (r: string)
    ensures r != [] ==> !IsJsSpace(r[0]) && !IsJsSpace(r[|r| - 1])
    ensures r == [] <==> forall k :: 0 <= k < |s| ==> IsJsSpace(s[k])
    ensures exists i, j :: && 0 <= i <= j <= |s| && r == s[i..j]
                          && (forall k :: 0 <= k < i ==> IsJsSpace(s[k]))
                          && (forall k :: j <= k < |s| ==> IsJsSpace(s[k]))
  {
    var t := TrimStart(s);
    var r := TrimEnd(t);
    TrimIsInfix(s, t, r);
    r
  }

  /** Trimming a trimmed text changes nothing. */
  lemma TrimIsIdempotent(s: string)
    ensures Trim(Trim(s)) == Trim(s)
  {
    var r := Trim(s);
    assert TrimStart(r) == r;
  }
}
