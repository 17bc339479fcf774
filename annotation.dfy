/** The persisted annotation shapes, shared by the drawing page
    (Frontend/health/src/pages/SubmissionView.js) and the backend, which
    receives them as `annotationJson.annotations`. */
module Annotations {
  import opened Basics

  /** A point in the image's own pixel space. */
  datatype Point = Point(x: real, y: real)

  /** The drawing tools of the toolbar; an annotation's `type` is the tool
      that drew it. */
  datatype Tool = Select | Freehand | Rectangle | Circle | Arrow

  /** One drawn shape. A missing colour is the empty string and a missing
      width is 0 (both falsy in JavaScript).
      - `Polyline` is `{type: 'freehand', points, color, lineWidth}`;
      - `Figure` is `{type, startX, startY, endX, endY, color, lineWidth}`,
        committed by every tool other than freehand (including 'select'). */
  datatype Annotation =
    | Polyline(points: seq<Point>, color: string, lineWidth: int)
    | Figure(kind: Tool, start: Point, end: Point, color: string, lineWidth: int)

  /** The annotation's `type` field. */
  function TypeOf(a: Annotation): Tool {
    match a
    case Polyline(_, _, _) => Freehand
    case Figure(k, _, _, _, _) => k
  }

  /** The `annotationJson` object: the annotation list, when present.
      The `savedAt` timestamp is not modelled. */
  datatype AnnotationJson = AnnotationJson(annotations: Option<seq<Annotation>>)
}
