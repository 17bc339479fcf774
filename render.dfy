/** The canvas drawing of the annotation page
    (Frontend/health/src/pages/SubmissionView.js:111-174 and 305-330): each
    redraw as the sequence of 2D-context calls it makes. Pixels are not
    modelled, and the square root and trigonometry used for circles and
    arrowheads are parameters. */
module Render {
  import opened Basics
  import opened Annotations

  /** One call on the 2D context. */
  datatype Cmd =
    | ClearRect
    | DrawImage(url: string)
    | StrokeStyle(color: string)
    | LineWidth(lineWidth: int)
    | BeginPath
    | MoveTo(p: Point)
    | LineTo(p: Point)
    | RectPath(corner: Point, spanX: real, spanY: real)
    | ArcPath(center: Point, radius: real, startAngle: real, endAngle: real)
    | Stroke

  /** The floating-point functions the drawing calls (`Math.sqrt`,
      `Math.atan2`, `Math.cos`, `Math.sin`, `Math.PI`). */
  datatype MathLib = MathLib(sqrt: real -> real, atan2: (real, real) -> real,
                             cos: real -> real, sin: real -> real, pi: real)

  const DefaultColor := "#ff0000"
  const DefaultWidth := 3
  const HeadLength: real := 15.0

  /** The end of one arrowhead barb, at `angle + turn` from the shaft. */
  function Barb(m: MathLib, start: Point, end: Point, turn: real): Point {
    var angle := m.atan2(end.y - start.y, end.x - start.x);
    Point(end.x - HeadLength * m.cos(angle + turn), end.y - HeadLength * m.sin(angle + turn))
  }

  /** The path of one annotation, by its type; 'select', a freehand figure
      without points and an empty polyline give no path. */
  function PathOf(m: MathLib, a: Annotation): seq<Cmd> {
    match a
    case Polyline(points, _, _) =>
      if |points| > 0 then [MoveTo(points[0])] + LineTos(points) else []
    case Figure(kind, start, end, _, _) =>
      match kind
      case Rectangle => [RectPath(start, end.x - start.x, end.y - start.y)]
      case Circle =>
        var dx := end.x - start.x;
        var dy := end.y - start.y;
        [ArcPath(start, m.sqrt(dx * dx + dy * dy), 0.0, 2.0 * m.pi)]
      case Arrow =>
        [MoveTo(start), LineTo(end), LineTo(Barb(m, start, end, -(m.pi / 6.0))),
         MoveTo(end), LineTo(Barb(m, start, end, m.pi / 6.0))]
      case _ => []
  }

  /** A `lineTo` for every point, in order. */
  function LineTos(points: seq<Point>): (cmds: seq<Cmd>)
    ensures |cmds| == |points| && forall i :: 0 <= i < |points| ==> cmds[i] == LineTo(points[i])
  {
    seq(|points|, i requires 0 <= i < |points| => LineTo(points[i]))
  }

  /** `drawAnnotation`: style with the falsy fallbacks, a fresh path, the
      annotation's path, one stroke. */
  function DrawAnnotation(m: MathLib, a: Annotation): seq<Cmd> {
    [StrokeStyle(OrElse(a.color, DefaultColor)),
     LineWidth(if a.lineWidth == 0 then DefaultWidth else a.lineWidth),
     BeginPath]
    + PathOf(m, a) + [Stroke]
  }

  /** `annotations.forEach(ann => drawAnnotation(ctx, ann))`. */
  function DrawAll(m: MathLib, anns: seq<Annotation>): seq<Cmd>
    decreases |anns|
  {
    if anns == [] then [] else DrawAll(m, anns[..|anns| - 1]) + DrawAnnotation(m, anns[|anns| - 1])
  }

  /** `redrawCanvas`: nothing without a loaded image; otherwise clear, the
      image, then every annotation in list order. */
  function Frame(m: MathLib, image: Option<string>, anns: seq<Annotation>): seq<Cmd> {
    if image.None? then [] else [ClearRect, DrawImage(image.value)] + DrawAll(m, anns)
  }

  /** The flattened image of `saveAnnotation`: a fresh canvas, the image when
      loaded, then every annotation. */
  function Flattened(m: MathLib, image: Option<string>, anns: seq<Annotation>): seq<Cmd> {
    (if image.None? then [] else [DrawImage(image.value)]) + DrawAll(m, anns)
  }

  /** `redrawCanvas` as the source runs it: a loop drawing one annotation
      after the other. */
  method RedrawCanvas(m: MathLib, image: Option<string>, anns: seq<Annotation>) returns (cmds: seq<Cmd>)
    ensures cmds == Frame(m, image, anns)
  {
    if image.None? {
      return [];
    }
    var drawn: seq<Cmd> := [];
    var i := 0;
    while i < |anns|
      invariant i <= |anns|
      invariant drawn == DrawAll(m, anns[..i])
    {
      DrawAllStep(m, anns, i);
      drawn := drawn + DrawAnnotation(m, anns[i]);
      i := i + 1;
    }
    assert anns[..i] == anns;
    cmds := [ClearRect, DrawImage(image.value)] + drawn;
  }

  /** One more annotation drawn by the loop. */
  lemma DrawAllStep(m: MathLib, anns: seq<Annotation>, i: nat)
    requires i < |anns|
    ensures DrawAll(m, anns[..i + 1]) == DrawAll(m, anns[..i]) + DrawAnnotation(m, anns[i])
  {
    assert anns[..i + 1][..i] == anns[..i];
  }

  // ---------------------------------------------------------------------
  // Properties of the drawing

  /** Number of strokes among the commands. */
  function Strokes(cmds: seq<Cmd>): nat
    decreases |cmds|
  {
    if cmds == [] then 0 else Strokes(cmds[..|cmds| - 1]) + (if cmds[|cmds| - 1] == Stroke then 1 else 0)
  }

  lemma {:induction false} StrokesAppend(a: seq<Cmd>, b: seq<Cmd>)
    ensures Strokes(a + b) == Strokes(a) + Strokes(b)
    decreases |b|
  {
    if b == [] {
      assert a + b == a;
    } else {
      StrokesAppend(a, b[..|b| - 1]);
      assert (a + b)[..|a + b| - 1] == a + b[..|b| - 1];
    }
  }

  /** A path never strokes. */
  lemma PathHasNoStroke(m: MathLib, a: Annotation)
    ensures Strokes(PathOf(m, a)) == 0
  {
    var p := PathOf(m, a);
    forall k | 0 <= k <= |p|
      ensures Strokes(p[..k]) == 0
    {
      PrefixStrokes(p, k);
    }
    assert p[..|p|] == p;
  }

  lemma {:induction false} PrefixStrokes(p: seq<Cmd>, k: nat)
    requires k <= |p| && forall i :: 0 <= i < |p| ==> p[i] != Stroke
    ensures Strokes(p[..k]) == 0
    decreases k
  {
    if k > 0 {
      PrefixStrokes(p, k - 1);
      assert p[..k][..k - 1] == p[..k - 1];
    }
  }

  /** Every annotation is stroked exactly once per redraw. */
  lemma {:induction false} OneStrokePerAnnotation(m: MathLib, anns: seq<Annotation>)
    ensures Strokes(DrawAll(m, anns)) == |anns|
    decreases |anns|
  {
    if anns != [] {
      var a := anns[|anns| - 1];
      OneStrokePerAnnotation(m, anns[..|anns| - 1]);
      PathHasNoStroke(m, a);
      var head := [StrokeStyle(OrElse(a.color, DefaultColor)),
                   LineWidth(if a.lineWidth == 0 then DefaultWidth else a.lineWidth), BeginPath];
      StrokesAppend(head, PathOf(m, a));
      StrokesAppend(head + PathOf(m, a), [Stroke]);
      PrefixStrokes(head, |head|);
      assert head[..|head|] == head;
      StrokesAppend(DrawAll(m, anns[..|anns| - 1]), DrawAnnotation(m, a));
    }
  }

  /** Appending an annotation appends exactly its drawing to the frame. */
  lemma AppendDrawsLast(m: MathLib, image: string, anns: seq<Annotation>, a: Annotation)
    ensures Frame(m, Some(image), anns + [a]) == Frame(m, Some(image), anns) + DrawAnnotation(m, a)
  {
    assert (anns + [a])[..|anns|] == anns;
  }

  /** The flattened image is the redraw without the initial clear. */
  lemma FlattenedIsFrame(m: MathLib, image: string, anns: seq<Annotation>)
    ensures [ClearRect] + Flattened(m, Some(image), anns) == Frame(m, Some(image), anns)
  {
  }

  /** A rectangle spans the drag: its far corner is the end point, with a
      negative width or height when dragged up or left. */
  lemma RectangleSpansDrag(m: MathLib, start: Point, end: Point, color: string, width: int)
    ensures var path := PathOf(m, Figure(Rectangle, start, end, color, width));
      |path| == 1 && path[0].RectPath? && path[0].corner == start &&
      path[0].corner.x + path[0].spanX == end.x && path[0].corner.y + path[0].spanY == end.y
  {
  }

  /** A freehand polyline of n > 0 points is one moveTo and n lineTos. */
  lemma PolylinePath(m: MathLib, points: seq<Point>, color: string, width: int)
    requires |points| > 0
    ensures var path := PathOf(m, Polyline(points, color, width));
      |path| == |points| + 1 && path[0] == MoveTo(points[0]) &&
      forall i :: 0 <= i < |points| ==> path[i + 1] == LineTo(points[i])
  {
  }

  /** An annotation is drawn in its own colour and width, red and 3 when
      they are missing, as one fresh path stroked once at the end. */
  lemma DrawAnnotationStyle(m: MathLib, a: Annotation)
    ensures var r := DrawAnnotation(m, a);
      && |r| == 4 + |PathOf(m, a)| && r[2] == BeginPath && r[|r| - 1] == Stroke
      && r[0] == StrokeStyle(if a.color == "" then DefaultColor else a.color)
      && r[1] == LineWidth(if a.lineWidth == 0 then DefaultWidth else a.lineWidth)
      && r[3..|r| - 1] == PathOf(m, a)
  {
    var r := DrawAnnotation(m, a);
    assert r[3..|r| - 1] == PathOf(m, a);
  }

  /** A polyline without points and a shape of the select tool draw no
      path: only the style, an empty path and its stroke. */
  lemma EmptyShapeDrawsNoPath(m: MathLib, a: Annotation)
    requires (a.Polyline? && a.points == []) || (a.Figure? && a.kind == Select)
    ensures PathOf(m, a) == []
    ensures DrawAnnotation(m, a) ==
      [StrokeStyle(if a.color == "" then DefaultColor else a.color),
       LineWidth(if a.lineWidth == 0 then DefaultWidth else a.lineWidth), BeginPath, Stroke]
  {
  }
}
