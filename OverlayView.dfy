/**
  The dimming view of one screen: which corners of the cutout are square or
  rounded, the outline of the cutout as a sequence of path commands, the
  draw decision, and the view's properties whose setters request a redraw.
 */
module Overlay {
  import opened Wrappers
  import opened Geometry

  /** Distance within which a cutout edge counts as flush with a view edge. */
  const FlushThreshold: real := 1.0

  /** Which cutout edges reach (within the threshold) or pass the view's edges. */
  datatype Flush = Flush(top: bool, bottom: bool, left: bool, right: bool)

  function FlushEdges(cutout: Rect, bounds: Rect): Flush {
    Flush(
      top := cutout.MaxY() >= bounds.MaxY() - FlushThreshold,
      bottom := cutout.MinY() <= bounds.MinY() + FlushThreshold,
      left := cutout.MinX() <= bounds.MinX() + FlushThreshold,
      right := cutout.MaxX() >= bounds.MaxX() - FlushThreshold)
  }

  datatype Corner = BottomLeft | BottomRight | TopRight | TopLeft

  /** The corner the outline visits after `c`. */
  function Next(c: Corner): Corner {
    match c
    case BottomLeft => BottomRight
    case BottomRight => TopRight
    case TopRight => TopLeft
    case TopLeft => BottomLeft
  }

  /** The corner the outline visits before `c`. */
  function Prev(c: Corner): Corner {
    match c
    case BottomLeft => TopLeft
    case BottomRight => BottomLeft
    case TopRight => BottomRight
    case TopLeft => TopRight
  }

  datatype Radii = Radii(topLeft: real, topRight: real, bottomLeft: real, bottomRight: real) {
    function At(c: Corner): real {
      match c
      case BottomLeft => bottomLeft
      case BottomRight => bottomRight
      case TopRight => topRight
      case TopLeft => topLeft
    }
  }

  /** Whether the horizontal edge (top or bottom) that meets corner `c` is flush. */
  predicate HorizontalEdgeFlush(f: Flush, c: Corner) {
    if c == TopLeft || c == TopRight then f.top else f.bottom
  }

  /** Whether the vertical edge (left or right) that meets corner `c` is flush. */
  predicate VerticalEdgeFlush(f: Flush, c: Corner) {
    if c == TopLeft || c == BottomLeft then f.left else f.right
  }

  /** The per-corner radii `draw` passes to the path builder. */
  function CornerRadii(f: Flush, base: real): Radii {
    Radii(
      topLeft := if f.top || f.left then 0.0 else base,
      topRight := if f.top || f.right then 0.0 else base,
      bottomLeft := if f.bottom || f.left then 0.0 else base,
      bottomRight := if f.bottom || f.right then 0.0 else base)
  }

  // ---------------------------------------------------------------------------
  // The outline of the cutout
  // ---------------------------------------------------------------------------

  datatype PathCmd =
    | MoveTo(to: Point)
    | LineTo(to: Point)
    | ArcTo(tangent1: Point, tangent2: Point, radius: real)
    | Close

  function CornerPoint(r: Rect, c: Corner): Point {
    match c
    case BottomLeft => Point(r.MinX(), r.MinY())
    case BottomRight => Point(r.MaxX(), r.MinY())
    case TopRight => Point(r.MaxX(), r.MaxY())
    case TopLeft => Point(r.MinX(), r.MaxY())
  }

  /** Unit direction of the edge that leaves corner `c` towards `Next(c)`. */
  function Heading(c: Corner): Point {
    match c
    case BottomLeft => Point(1.0, 0.0)
    case BottomRight => Point(0.0, 1.0)
    case TopRight => Point(-1.0, 0.0)
    case TopLeft => Point(0.0, -1.0)
  }

  /** Length of the edge from corner `c` to `Next(c)`. */
  function EdgeLength(r: Rect, c: Corner): real {
    if c == BottomLeft || c == TopRight then r.Width() else r.Height()
  }

  /** `p` moved by `k` along the direction `d`. */
  function Offset(p: Point, d: Point, k: real): Point {
    Point(p.x + k * d.x, p.y + k * d.y)
  }

  /** Where the outline meets the edge arriving at `c`, the corner's radius before it. */
  function Entry(r: Rect, radii: Radii, c: Corner): Point {
    Offset(CornerPoint(r, c), Heading(Prev(c)), -radii.At(c))
  }

  /** Where the outline leaves corner `c`, the corner's radius along the next edge. */
  function Exit(r: Rect, radii: Radii, c: Corner): Point {
    Offset(CornerPoint(r, c), Heading(c), radii.At(c))
  }

  /** How the outline turns corner `c`: a tangent arc, or a line to the exact corner. */
  function Turn(r: Rect, radii: Radii, c: Corner): PathCmd {
    if radii.At(c) > 0.0 then ArcTo(CornerPoint(r, c), Exit(r, radii, c), radii.At(c))
    else LineTo(CornerPoint(r, c))
  }

  /** The closed outline: start on the left edge, then turn the corners in trace order. */
  function RoundedRectPath(r: Rect, radii: Radii): seq<PathCmd> {
    [ MoveTo(Entry(r, radii, BottomLeft)), Turn(r, radii, BottomLeft),
      LineTo(Entry(r, radii, BottomRight)), Turn(r, radii, BottomRight),
      LineTo(Entry(r, radii, TopRight)), Turn(r, radii, TopRight),
      LineTo(Entry(r, radii, TopLeft)), Turn(r, radii, TopLeft),
      Close ]
  }

  /** The corners in the order the outline turns them. */
  const TraceOrder: seq<Corner> := [BottomLeft, BottomRight, TopRight, TopLeft]

  /** Every point a path command names (arc tangent points included). */
  function PointsOf(cmd: PathCmd): set<Point> {
    match cmd
    case MoveTo(p) => {p}
    case LineTo(p) => {p}
    case ArcTo(t1, t2, _) => {t1, t2}
    case Close => {}
  }

  /** The points the path reaches with a move or a straight line. */
  function Vertices(path: seq<PathCmd>): set<Point> {
    set i, p | 0 <= i < |path| && p in PointsOf(path[i]) && !path[i].ArcTo? :: p
  }

  /**
    The path builder as the view runs it: a mutable path to which each step
    appends one command, with the coordinates written out per corner.
   */
  method BuildRoundedRectPath(rect: Rect, radii: Radii) returns (path: seq<PathCmd>)
    ensures path == RoundedRectPath(rect, radii)
  {
    var minX, maxX, minY, maxY := rect.MinX(), rect.MaxX(), rect.MinY(), rect.MaxY();
    path := [];

    path := path + [MoveTo(Point(minX, minY + radii.bottomLeft))];

    if radii.bottomLeft > 0.0 {
      path := path + [ArcTo(Point(minX, minY), Point(minX + radii.bottomLeft, minY), radii.bottomLeft)];
    } else {
      path := path + [LineTo(Point(minX, minY))];
    }

    path := path + [LineTo(Point(maxX - radii.bottomRight, minY))];
    if radii.bottomRight > 0.0 {
      path := path + [ArcTo(Point(maxX, minY), Point(maxX, minY + radii.bottomRight), radii.bottomRight)];
    } else {
      path := path + [LineTo(Point(maxX, minY))];
    }

    path := path + [LineTo(Point(maxX, maxY - radii.topRight))];
    if radii.topRight > 0.0 {
      path := path + [ArcTo(Point(maxX, maxY), Point(maxX - radii.topRight, maxY), radii.topRight)];
    } else {
      path := path + [LineTo(Point(maxX, maxY))];
    }

    path := path + [LineTo(Point(minX + radii.topLeft, maxY))];
    if radii.topLeft > 0.0 {
      path := path + [ArcTo(Point(minX, maxY), Point(minX, maxY - radii.topLeft), radii.topLeft)];
    } else {
      path := path + [LineTo(Point(minX, maxY))];
    }

    path := path + [Close];
  }

  // ---------------------------------------------------------------------------
  // The draw decision
  // ---------------------------------------------------------------------------

  datatype DrawOutcome =
    | Skipped                                       // no graphics context: nothing drawn
    | FillAll(area: Rect)                           // dim the whole view
    | EvenOdd(outer: Rect, hole: seq<PathCmd>)      // dim the view minus the hole, even-odd rule

  /** What `draw` paints for a view with these bounds, cutout and corner radius. */
  function Render(bounds: Rect, cutout: Option<Rect>, base: real): DrawOutcome {
    match cutout
    case None => FillAll(bounds)
    case Some(c) =>
      match Intersection(c, bounds)
      case None => FillAll(bounds)
      case Some(clipped) =>
        if clipped.IsEmpty() then FillAll(bounds)
        else EvenOdd(bounds, RoundedRectPath(clipped, CornerRadii(FlushEdges(c, bounds), base)))
  }

  // ---------------------------------------------------------------------------
  // Properties of the flush flags and the corner radii
  // ---------------------------------------------------------------------------

  /**
    A corner is square exactly when one of the two cutout edges that meet
    there is flush; every other corner gets the base radius unchanged, with
    no clamping to the size of the cutout.
   */
  lemma CornerRadiusRule(f: Flush, base: real, c: Corner)
    ensures HorizontalEdgeFlush(f, c) || VerticalEdgeFlush(f, c) ==> CornerRadii(f, base).At(c) == 0.0
    ensures !HorizontalEdgeFlush(f, c) && !VerticalEdgeFlush(f, c) ==> CornerRadii(f, base).At(c) == base
    ensures base != 0.0 ==> (CornerRadii(f, base).At(c) == 0.0 <==> HorizontalEdgeFlush(f, c) || VerticalEdgeFlush(f, c))
  {
  }

  /** A flush top edge squares both top corners, whatever the sides do. */
  lemma TopFlushSquaresTopCorners(cutout: Rect, bounds: Rect, base: real)
    requires cutout.MaxY() >= bounds.MaxY() - FlushThreshold
    ensures CornerRadii(FlushEdges(cutout, bounds), base).topLeft == 0.0
    ensures CornerRadii(FlushEdges(cutout, bounds), base).topRight == 0.0
  {
  }

  /** A cutout more than the threshold away from every view edge has four rounded corners. */
  lemma FloatingCutoutFullyRounded(cutout: Rect, bounds: Rect, base: real)
    requires bounds.MinX() + FlushThreshold < cutout.MinX() && cutout.MaxX() < bounds.MaxX() - FlushThreshold
    requires bounds.MinY() + FlushThreshold < cutout.MinY() && cutout.MaxY() < bounds.MaxY() - FlushThreshold
    ensures CornerRadii(FlushEdges(cutout, bounds), base) == Radii(base, base, base, base)
  {
  }

  /**
    The flush flags come out the same from the clipped cutout as from the
    unclipped one: clipping only pulls an edge that lies beyond the view back
    onto the view's edge, where it is still flush.
   */
  lemma {:induction false} ClipPreservesFlush(cutout: Rect, bounds: Rect)
    requires Intersection(cutout, bounds).Some?
    ensures FlushEdges(Intersection(cutout, bounds).value, bounds) == FlushEdges(cutout, bounds)
  {
    var clipped := Intersection(cutout, bounds).value;
    assert clipped.MaxY() == Min(cutout.MaxY(), bounds.MaxY());
    assert clipped.MinY() == Max(cutout.MinY(), bounds.MinY());
    assert clipped.MinX() == Max(cutout.MinX(), bounds.MinX());
    assert clipped.MaxX() == Min(cutout.MaxX(), bounds.MaxX());
  }

  /**
    A window at the view's origin, 500 by 500 on a 1920 by 1080 view, is
    flush on its left and bottom edges, so three corners are square and only
    the top-right one is rounded.
   */
  lemma OriginCutoutCorners(base: real)
    ensures CornerRadii(FlushEdges(Rect(0.0, 0.0, 500.0, 500.0), Rect(0.0, 0.0, 1920.0, 1080.0)), base)
         == Radii(topLeft := 0.0, topRight := base, bottomLeft := 0.0, bottomRight := 0.0)
    ensures Intersection(Rect(0.0, 0.0, 500.0, 500.0), Rect(0.0, 0.0, 1920.0, 1080.0)) == Some(Rect(0.0, 0.0, 500.0, 500.0))
  {
  }

  // ---------------------------------------------------------------------------
  // Properties of the outline
  // ---------------------------------------------------------------------------

  /** An axis-aligned segment from `a` to `b` contains `p`. */
  predicate OnSegment(a: Point, b: Point, p: Point) {
    (a.x == b.x || a.y == b.y) &&
    Min(a.x, b.x) <= p.x <= Max(a.x, b.x) && Min(a.y, b.y) <= p.y <= Max(a.y, b.y)
  }

  function Abs(v: real): real { if v < 0.0 then -v else v }

  /** Distance between two points that share one coordinate. */
  function AxisDistance(a: Point, b: Point): real { Abs(a.x - b.x) + Abs(a.y - b.y) }

  /**
    The outline is nine commands: a move to the left edge at the bottom-left
    radius above the bottom, then each corner in the order bottom-left,
    bottom-right, top-right, top-left (every corner after the first reached by
    a line along its arriving edge), then a close.
   */
  lemma {:induction false} OutlineOrder(r: Rect, radii: Radii)
    ensures |RoundedRectPath(r, radii)| == 9
    ensures RoundedRectPath(r, radii)[0] == MoveTo(Point(r.MinX(), r.MinY() + radii.bottomLeft))
    ensures RoundedRectPath(r, radii)[8] == Close
    ensures forall k :: 0 <= k < 4 ==> RoundedRectPath(r, radii)[2 * k + 1] == Turn(r, radii, TraceOrder[k])
    ensures forall k :: 1 <= k < 4 ==> RoundedRectPath(r, radii)[2 * k] == LineTo(Entry(r, radii, TraceOrder[k]))
    ensures forall k :: 0 <= k < 3 ==> TraceOrder[k + 1] == Next(TraceOrder[k])
  {
    var p := RoundedRectPath(r, radii);
    forall k | 0 <= k < 4 ensures p[2 * k + 1] == Turn(r, radii, TraceOrder[k]) {
      if k == 0 { } else if k == 1 { } else if k == 2 { } else { }
    }
    forall k | 1 <= k < 4 ensures p[2 * k] == LineTo(Entry(r, radii, TraceOrder[k])) {
      if k == 1 { } else if k == 2 { } else { }
    }
  }

  /**
    A corner is turned by an arc exactly when its radius is positive; the
    arc's first tangent point is the exact corner and its radius the
    corner's. A corner with no radius is a line to the exact corner.
   */
  lemma TurnShape(r: Rect, radii: Radii, c: Corner)
    ensures Turn(r, radii, c).ArcTo? <==> radii.At(c) > 0.0
    ensures Turn(r, radii, c).ArcTo? ==>
      Turn(r, radii, c).tangent1 == CornerPoint(r, c) && Turn(r, radii, c).radius == radii.At(c)
    ensures !Turn(r, radii, c).ArcTo? ==> Turn(r, radii, c) == LineTo(CornerPoint(r, c))
  {
  }

  /**
    The arc's second tangent point lies on the edge to the next corner, at
    the corner's radius from the corner; the line that reaches a corner
    arrives on the edge from the previous corner at the same distance.
   */
  lemma {:induction false} TangentPointsOnEdges(r: Rect, radii: Radii, c: Corner)
    requires 0.0 <= radii.At(c) <= Min(r.Width(), r.Height())
    ensures OnSegment(CornerPoint(r, c), CornerPoint(r, Next(c)), Exit(r, radii, c))
    ensures AxisDistance(CornerPoint(r, c), Exit(r, radii, c)) == radii.At(c)
    ensures OnSegment(CornerPoint(r, Prev(c)), CornerPoint(r, c), Entry(r, radii, c))
    ensures AxisDistance(CornerPoint(r, c), Entry(r, radii, c)) == radii.At(c)
  {
    match c
    case BottomLeft =>
    case BottomRight =>
    case TopRight =>
    case TopLeft =>
  }

  /** With every radius zero, the outline's vertices are exactly the four corners. */
  lemma {:induction false} SquareOutlineVertices(r: Rect)
    ensures Vertices(RoundedRectPath(r, Radii(0.0, 0.0, 0.0, 0.0)))
         == {CornerPoint(r, BottomLeft), CornerPoint(r, BottomRight), CornerPoint(r, TopRight), CornerPoint(r, TopLeft)}
    ensures forall i :: 0 <= i < |RoundedRectPath(r, Radii(0.0, 0.0, 0.0, 0.0))| ==>
      !RoundedRectPath(r, Radii(0.0, 0.0, 0.0, 0.0))[i].ArcTo?
  {
    var radii := Radii(0.0, 0.0, 0.0, 0.0);
    var path := RoundedRectPath(r, radii);
    var corners := {CornerPoint(r, BottomLeft), CornerPoint(r, BottomRight), CornerPoint(r, TopRight), CornerPoint(r, TopLeft)};
    assert path == [ MoveTo(CornerPoint(r, BottomLeft)), LineTo(CornerPoint(r, BottomLeft)),
                     LineTo(CornerPoint(r, BottomRight)), LineTo(CornerPoint(r, BottomRight)),
                     LineTo(CornerPoint(r, TopRight)), LineTo(CornerPoint(r, TopRight)),
                     LineTo(CornerPoint(r, TopLeft)), LineTo(CornerPoint(r, TopLeft)), Close ];
    forall p | p in Vertices(path) ensures p in corners {
      var i :| 0 <= i < |path| && p in PointsOf(path[i]) && !path[i].ArcTo?;
    }
    forall p | p in corners ensures p in Vertices(path) {
      if p == CornerPoint(r, BottomLeft) {
        assert p in PointsOf(path[1]);
      } else if p == CornerPoint(r, BottomRight) {
        assert p in PointsOf(path[2]);
      } else if p == CornerPoint(r, TopRight) {
        assert p in PointsOf(path[4]);
      } else {
        assert p in PointsOf(path[6]);
      }
    }
  }

  /**
    When no radius exceeds the rect's shorter side, every point the outline
    names lies in the rect: the corners, and each corner's entry and exit
    points on the edges that meet there.
   */
  lemma {:induction false} OutlineInsideRect(r: Rect, radii: Radii)
    requires forall c: Corner :: 0.0 <= radii.At(c) <= Min(r.Width(), r.Height())
    ensures forall i, p :: 0 <= i < |RoundedRectPath(r, radii)| && p in PointsOf(RoundedRectPath(r, radii)[i]) ==> r.Contains(p)
  {
    var path := RoundedRectPath(r, radii);
    forall c: Corner
      ensures r.Contains(CornerPoint(r, c)) && r.Contains(Entry(r, radii, c)) && r.Contains(Exit(r, radii, c))
    {
      TangentPointsOnEdges(r, radii, c);
    }
    forall i, p | 0 <= i < |path| && p in PointsOf(path[i]) ensures r.Contains(p) {
      OutlineOrder(r, radii);
      if i % 2 == 1 {
        assert path[i] == Turn(r, radii, TraceOrder[i / 2]);
      }
    }
  }

  /**
    When the base radius fits the clipped cutout, every point the hole's
    outline names lies inside the view.
   */
  lemma {:induction false} HoleInsideView(bounds: Rect, cutout: Rect, base: real)
    requires Intersection(cutout, bounds).Some?
    requires 0.0 <= base <= Min(Intersection(cutout, bounds).value.Width(), Intersection(cutout, bounds).value.Height())
    ensures Render(bounds, Some(cutout), base).EvenOdd? ==>
      forall i, p ::
        (0 <= i < |Render(bounds, Some(cutout), base).hole| && p in PointsOf(Render(bounds, Some(cutout), base).hole[i]))
        ==> bounds.Contains(p)
  {
    var clipped := Intersection(cutout, bounds).value;
    OutlineInsideRect(clipped, CornerRadii(FlushEdges(cutout, bounds), base));
  }

  // ---------------------------------------------------------------------------
  // The view
  // ---------------------------------------------------------------------------

  class OverlayView {
    /** The frame of the view's window, which is its screen's frame. */
    const frame: Rect
    var opacity: real
    /** Corner radius of the focused window, used for non-flush corners. */
    var cornerRadius: real
    /** The focused window's rect in this view's coordinates, if any. */
    var cutoutRect: Option<Rect>
    /** Whether a redraw has been requested. */
    var needsDisplay: bool

    constructor (frame: Rect)
      ensures this.frame == frame
      ensures opacity == 0.4 && cornerRadius == 10.0 && cutoutRect == None && !needsDisplay
    {
      this.frame := frame;
      opacity := 0.4;
      cornerRadius := 10.0;
      cutoutRect := None;
      needsDisplay := false;
    }

    /** The view's own coordinate space: its frame's size at the origin. */
    function Bounds(): Rect {
      Rect(0.0, 0.0, frame.w, frame.h)
    }

    method SetOpacity(v: real)
      modifies this`opacity, this`needsDisplay
      ensures opacity == v && needsDisplay
    {
      opacity := v;
      needsDisplay := true;
    }

    method SetCornerRadius(v: real)
      modifies this`cornerRadius, this`needsDisplay
      ensures cornerRadius == v && needsDisplay
    {
      cornerRadius := v;
      needsDisplay := true;
    }

    method SetCutoutRect(r: Option<Rect>)
      modifies this`cutoutRect, this`needsDisplay
      ensures cutoutRect == r && needsDisplay
    {
      cutoutRect := r;
      needsDisplay := true;
    }

    /** Paint the view; `hasContext` says whether a graphics context exists. */
    method Draw(hasContext: bool) returns (outcome: DrawOutcome)
      ensures outcome == if hasContext then Render(Bounds(), cutoutRect, cornerRadius) else Skipped
    {
      if !hasContext {
        return Skipped;
      }
      var bounds := Bounds();
      if cutoutRect.Some? {
        var cutout := cutoutRect.value;
        var clipped := Intersection(cutout, bounds);
        if clipped.Some? && !clipped.value.IsEmpty() {
          var radii := CornerRadii(FlushEdges(cutout, bounds), cornerRadius);
          var hole := BuildRoundedRectPath(clipped.value, radii);
          return EvenOdd(bounds, hole);
        }
      }
      return FillAll(bounds);
    }
  }
}
