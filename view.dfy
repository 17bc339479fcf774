/** The annotation page of the frontend
    (Frontend/health/src/pages/SubmissionView.js): the drawing state, the
    mouse handlers that change it one event at a time, the coordinate
    mapping, loading and saving. Each handler is one atomic transition; the
    canvas calls it makes are returned as a sequence of commands. */
module View {
  import opened Basics
  import opened Palette
  import opened Annotations
  import opened Render
  import opened Submissions
  import opened Routes

  /** One option of the colour dropdown. */
  datatype PaletteEntry = PaletteEntry(value: string, caption: string)

  /** The dropdown's options, in order; the first is the initial colour. */
  const ColorPalette: seq<PaletteEntry> := [
    PaletteEntry("#ff0000", "Red - Stains"),
    PaletteEntry("#ff5252", "Cherry Red - Inflammed Gums"),
    PaletteEntry("#ff6b6b", "Light Red - Receded Gums"),
    PaletteEntry("#ffff00", "Yellow - Malaligned"),
    PaletteEntry("#4caf50", "Green - Attrition"),
    PaletteEntry("#2196f3", "Blue - Crowns")
  ]

  /** A colour the dropdown offers. */
  predicate InPalette(c: string) {
    exists i :: 0 <= i < |ColorPalette| && ColorPalette[i].value == c
  }

  /** Each dropdown option is the classifier's colour of the category its
      caption names, in the classifier's category order. */
  lemma PaletteMatchesClassifier(i: nat)
    requires i < |ColorPalette|
    ensures CategoryOfColor(ColorPalette[i].value) == Some(Categories[i])
  {
    var c := Categories[i];
    assert ColorPalette[i].value == Hex(c);
    CategoryOfColorExact(Hex(c), c);
  }

  /** The colours the page can draw with are exactly those the backend
      classifies. */
  lemma PaletteIsClassifierTable(c: string)
    ensures InPalette(c) <==> CategoryOfColor(c).Some?
  {
    if CategoryOfColor(c).Some? {
      var i := Index(CategoryOfColor(c).value);
      PaletteMatchesClassifier(i);
      CategoryOfColorExact(c, Categories[i]);
      CategoryOfColorExact(ColorPalette[i].value, Categories[i]);
    } else if InPalette(c) {
      var i :| 0 <= i < |ColorPalette| && ColorPalette[i].value == c;
      PaletteMatchesClassifier(i);
    }
  }

  // ---------------------------------------------------------------------
  // Coordinates

  /** The canvas element: its bitmap size (the image's pixel size) and the
      box it is displayed in. */
  datatype Canvas = Canvas(width: nat, height: nat, left: real, top: real, rectWidth: real, rectHeight: real)

  /** A canvas the mouse can be over has a displayed box of positive size. */
  predicate Displayed(canvas: Option<Canvas>) {
    canvas.Some? ==> canvas.value.rectWidth > 0.0 && canvas.value.rectHeight > 0.0
  }

  /** `getCanvasCoordinates`: the mouse position in image pixels, each
      axis scaled by its own factor; (0, 0) before the canvas exists. */
  function CanvasCoordinates(canvas: Option<Canvas>, clientX: real, clientY: real): (p: Point)
    requires Displayed(canvas)
    ensures canvas.None? ==> p == Point(0.0, 0.0)
    ensures canvas.Some? ==>
      p.x * canvas.value.rectWidth == (clientX - canvas.value.left) * canvas.value.width as real &&
      p.y * canvas.value.rectHeight == (clientY - canvas.value.top) * canvas.value.height as real
  {
    if canvas.None? then Point(0.0, 0.0)
    else
      var c := canvas.value;
      var scaleX := c.width as real / c.rectWidth;
      var scaleY := c.height as real / c.rectHeight;
      Point((clientX - c.left) * scaleX, (clientY - c.top) * scaleY)
  }

  /** Where on the screen an image pixel is displayed. */
  function ClientPosition(c: Canvas, p: Point): (r: Point)
    requires c.width > 0 && c.height > 0
  {
    Point(c.left + p.x * c.rectWidth / c.width as real, c.top + p.y * c.rectHeight / c.height as real)
  }

  /** Mapping a mouse position to the image and back gives the mouse
      position again. */
  lemma CoordinatesRoundTrip(c: Canvas, clientX: real, clientY: real)
    requires Displayed(Some(c)) && c.width > 0 && c.height > 0
    ensures ClientPosition(c, CanvasCoordinates(Some(c), clientX, clientY)) == Point(clientX, clientY)
  {
    var p := CanvasCoordinates(Some(c), clientX, clientY);
    assert p.x * c.rectWidth / c.width as real == clientX - c.left;
    assert p.y * c.rectHeight / c.height as real == clientY - c.top;
  }

  /** The displayed box's top-left and bottom-right corners map to the
      image's corners. */
  lemma CornersMapToImage(c: Canvas)
    requires Displayed(Some(c))
    ensures CanvasCoordinates(Some(c), c.left, c.top) == Point(0.0, 0.0)
    ensures CanvasCoordinates(Some(c), c.left + c.rectWidth, c.top + c.rectHeight)
         == Point(c.width as real, c.height as real)
  {
    var far := CanvasCoordinates(Some(c), c.left + c.rectWidth, c.top + c.rectHeight);
    assert far.x * c.rectWidth == c.rectWidth * c.width as real;
    assert far.y * c.rectHeight == c.rectHeight * c.height as real;
  }

  // ---------------------------------------------------------------------
  // Loading and saving

  /** The image the page loads: the annotated image when there is one,
      otherwise the original; none when both are empty. */
  function ImageSource(sub: Submission): (url: Option<string>)
    ensures url.Some? ==> url.value != ""
    ensures sub.annotatedImageUrl.Some? && sub.annotatedImageUrl.value != "" ==> url == sub.annotatedImageUrl
    ensures (sub.annotatedImageUrl.None? || sub.annotatedImageUrl.value == "") && sub.originalImageUrl != "" ==>
      url == Some(sub.originalImageUrl)
    ensures url.None? <==> (sub.annotatedImageUrl.None? || sub.annotatedImageUrl.value == "") && sub.originalImageUrl == ""
  {
    if sub.annotatedImageUrl.Some? && sub.annotatedImageUrl.value != "" then sub.annotatedImageUrl
    else if sub.originalImageUrl != "" then Some(sub.originalImageUrl)
    else None
  }

  /** The list after loading a submission: its persisted list when present
      (even an empty one), otherwise the current list. */
  function LoadedAnnotations(current: seq<Annotation>, json: Option<AnnotationJson>): (anns: seq<Annotation>)
    ensures json.None? || json.value.annotations.None? ==> anns == current
    ensures forall saved :: json == Some(AnnotationJson(Some(saved))) ==> anns == saved
  {
    if json.Some? && json.value.annotations.Some? then json.value.annotations.value else current
  }

  /** The body posted by `saveAnnotation`: the flattened image as a PNG
      data URL (its base64 payload is a parameter) and exactly the current
      list. */
  function SaveRequest(anns: seq<Annotation>, pngBase64: string): (r: AnnotateRequest)
    ensures r.annotationJson.Some? && r.annotationJson.value.annotations == Some(anns)
    ensures StartsWith(r.annotatedImageBase64, "data:image/png;base64,")
  {
    AnnotateRequest(Some(AnnotationJson(Some(anns))), "data:image/png;base64," + pngBase64)
  }

  /** After a successful save, loading the submission again gives back the
      saved list, whatever the page held before, and the submission is
      marked annotated. */
  lemma SaveThenReload(sub: Submission, anns: seq<Annotation>, pngBase64: string, env: AnnotateEnv,
                       user: User, before: seq<Annotation>)
    requires AnnotateOutcome(sub, SaveRequest(anns, pngBase64), env, user).Success?
    ensures var saved := AnnotateOutcome(sub, SaveRequest(anns, pngBase64), env, user).value;
      LoadedAnnotations(before, saved.annotationJson) == anns && saved.status == Annotated
  {
  }

  /** What the save button sends: the flattened drawing and the request. */
  datatype Save = Save(flattened: seq<Cmd>, request: AnnotateRequest)

  // ---------------------------------------------------------------------
  // The page state

  class SubmissionView {
    /** `user.role === 'admin'`. */
    const isAdmin: bool
    const math: MathLib
    var tool: Tool
    var color: string
    var lineWidth: int
    var drawing: bool
    var startPos: Point
    var currentPos: Point
    var annotations: seq<Annotation>
    /** The loaded base image (`imageRef.current`), by its URL. */
    var image: Option<string>

    /** The toolbar keeps the width in 1..10 and the colour in the palette;
        only an admin can be drawing. */
    ghost predicate Valid()
      reads this
    {
      1 <= lineWidth <= 10 && InPalette(color) && (drawing ==> isAdmin)
    }

    /** The initial state of the page. */
    constructor(isAdmin: bool, math: MathLib)
      ensures Valid()
      ensures this.isAdmin == isAdmin && this.math == math
      ensures tool == Freehand && color == ColorPalette[0].value && lineWidth == 3
      ensures !drawing && startPos == Point(0.0, 0.0) && currentPos == Point(0.0, 0.0)
      ensures annotations == [] && image.None?
    {
      this.isAdmin := isAdmin;
      this.math := math;
      tool := Freehand;
      color := "#ff0000";
      lineWidth := 3;
      drawing := false;
      startPos := Point(0.0, 0.0);
      currentPos := Point(0.0, 0.0);
      annotations := [];
      image := None;
      new;
      assert ColorPalette[0].value == color;
    }

    /** A toolbar button. */
    method SetTool(t: Tool)
      requires Valid()
      modifies this
      ensures Valid() && tool == t
      ensures color == old(color) && lineWidth == old(lineWidth) && drawing == old(drawing)
      ensures startPos == old(startPos) && currentPos == old(currentPos)
      ensures annotations == old(annotations) && image == old(image)
    {
      tool := t;
    }

    /** The colour dropdown, which offers only palette colours. */
    method SetColor(c: string)
      requires Valid() && InPalette(c)
      modifies this
      ensures Valid() && color == c
      ensures tool == old(tool) && lineWidth == old(lineWidth) && drawing == old(drawing)
      ensures startPos == old(startPos) && currentPos == old(currentPos)
      ensures annotations == old(annotations) && image == old(image)
    {
      color := c;
    }

    /** The width slider, whose range is 1..10. */
    method SetLineWidth(w: int)
      requires Valid() && 1 <= w <= 10
      modifies this
      ensures Valid() && lineWidth == w
      ensures tool == old(tool) && color == old(color) && drawing == old(drawing)
      ensures startPos == old(startPos) && currentPos == old(currentPos)
      ensures annotations == old(annotations) && image == old(image)
    {
      lineWidth := w;
    }

    /** The fetched submission: its persisted list replaces the current one
        when present. */
    method Load(json: Option<AnnotationJson>)
      requires Valid()
      modifies this
      ensures Valid() && annotations == LoadedAnnotations(old(annotations), json)
      ensures tool == old(tool) && color == old(color) && lineWidth == old(lineWidth)
      ensures drawing == old(drawing) && startPos == old(startPos) && currentPos == old(currentPos)
      ensures image == old(image)
    {
      if json.Some? && json.value.annotations.Some? {
        annotations := json.value.annotations.value;
      }
    }

    /** The base image finished loading: it is drawn, then the canvas is
        redrawn with the list. */
    method ImageLoaded(url: string) returns (frame: seq<Cmd>)
      requires Valid()
      modifies this
      ensures Valid() && image == Some(url)
      ensures frame == [DrawImage(url)] + Frame(math, image, annotations)
      ensures tool == old(tool) && color == old(color) && lineWidth == old(lineWidth)
      ensures drawing == old(drawing) && startPos == old(startPos) && currentPos == old(currentPos)
      ensures annotations == old(annotations)
    {
      image := Some(url);
      var redraw := RedrawCanvas(math, image, annotations);
      frame := [DrawImage(url)] + redraw;
    }

    /** Mouse down: record the start, start drawing, and open a freehand
        polyline at the point when the freehand tool is active. */
    method StartDrawing(canvas: Option<Canvas>, clientX: real, clientY: real)
      requires Valid() && Displayed(canvas)
      modifies this
      ensures Valid()
      ensures !isAdmin ==>
        drawing == old(drawing) && startPos == old(startPos) &&
        currentPos == old(currentPos) && annotations == old(annotations)
      ensures isAdmin ==>
        drawing && startPos == CanvasCoordinates(canvas, clientX, clientY) && currentPos == startPos
      ensures isAdmin && tool == Freehand ==>
        annotations == old(annotations) + [Polyline([startPos], color, lineWidth)]
      ensures tool != Freehand ==> annotations == old(annotations)
      ensures tool == old(tool) && color == old(color) && lineWidth == old(lineWidth) && image == old(image)
    {
      if !isAdmin {
        return;
      }
      var p := CanvasCoordinates(canvas, clientX, clientY);
      startPos := p;
      currentPos := p;
      drawing := true;
      if tool == Freehand {
        annotations := annotations + [Polyline([p], color, lineWidth)];
      }
    }

    /** Mouse move while drawing: track the mouse; with the freehand tool
        add the point to the last polyline and redraw; with any other tool
        redraw with a preview of the shape. With no canvas mounted, or a last
        annotation without points, the handler stops after tracking the
        position, before it changes the list or redraws. */
    method Draw(canvas: Option<Canvas>, clientX: real, clientY: real) returns (frame: seq<Cmd>)
      requires Valid() && Displayed(canvas)
      modifies this
      ensures Valid()
      ensures !old(drawing) ==> frame == [] && currentPos == old(currentPos) && annotations == old(annotations)
      ensures old(drawing) ==> currentPos == CanvasCoordinates(canvas, clientX, clientY)
      ensures |annotations| == |old(annotations)|
      ensures forall i :: 0 <= i < |annotations| - 1 ==> annotations[i] == old(annotations)[i]
      ensures canvas.None? ==> annotations == old(annotations) && frame == []
      ensures old(drawing) && canvas.Some? && tool == Freehand && annotations != [] &&
              old(annotations)[|annotations| - 1].Polyline? ==>
        var last := old(annotations)[|annotations| - 1];
        annotations[|annotations| - 1] == last.(points := last.points + [currentPos]) &&
        frame == Frame(math, image, annotations)
      ensures old(drawing) && canvas.Some? && tool == Freehand && annotations == [] ==>
        frame == Frame(math, image, annotations)
      ensures old(drawing) && tool == Freehand && annotations != [] && old(annotations)[|annotations| - 1].Figure? ==>
        annotations == old(annotations) && frame == []
      ensures old(drawing) && canvas.Some? && tool != Freehand ==>
        annotations == old(annotations) &&
        frame == (if image.None? then [] else
                  Frame(math, image, annotations) + DrawAnnotation(math, Figure(tool, startPos, currentPos, color, lineWidth)))
      ensures tool == old(tool) && color == old(color) && lineWidth == old(lineWidth) && image == old(image)
      ensures drawing == old(drawing) && startPos == old(startPos)
    {
      if !drawing || !isAdmin {
        return [];
      }
      var p := CanvasCoordinates(canvas, clientX, clientY);
      currentPos := p;
      if canvas.None? {
        return [];
      }
      if tool == Freehand {
        if |annotations| > 0 {
          var last := annotations[|annotations| - 1];
          if last.Figure? {
            return [];
          }
          annotations := annotations[..|annotations| - 1] + [last.(points := last.points + [p])];
        }
        frame := RedrawCanvas(math, image, annotations);
      } else {
        frame := [];
        if image.Some? {
          frame := RedrawCanvas(math, image, annotations);
          frame := frame + DrawAnnotation(math, Figure(tool, startPos, p, color, lineWidth));
        }
      }
    }

    /** Mouse up or mouse leave while drawing: stop drawing; any tool other
        than freehand (the select tool included) commits one shape from the
        start to the last tracked position and redraws. */
    method StopDrawing() returns (frame: seq<Cmd>)
      requires Valid()
      modifies this
      ensures Valid() && !drawing
      ensures !old(drawing) ==> frame == [] && annotations == old(annotations)
      ensures old(drawing) && tool == Freehand ==> frame == [] && annotations == old(annotations)
      ensures old(drawing) && tool != Freehand ==>
        annotations == old(annotations) + [Figure(tool, startPos, currentPos, color, lineWidth)] &&
        frame == Frame(math, image, annotations)
      ensures tool == old(tool) && color == old(color) && lineWidth == old(lineWidth) && image == old(image)
      ensures startPos == old(startPos) && currentPos == old(currentPos)
    {
      if !drawing || !isAdmin {
        return [];
      }
      drawing := false;
      frame := [];
      if tool != Freehand {
        var before := annotations;
        var shape := Figure(tool, startPos, currentPos, color, lineWidth);
        var redraw := RedrawCanvas(math, image, before);
        if image.Some? {
          AppendDrawsLast(math, image.value, before, shape);
          frame := redraw + DrawAnnotation(math, shape);
        }
        annotations := before + [shape];
        assert frame == Frame(math, image, before + [shape]);
      }
    }

    /** The clear button: once confirmed, the list is emptied and only the
        base image is redrawn. */
    method ClearCanvas(confirmed: bool) returns (frame: seq<Cmd>)
      requires Valid()
      modifies this
      ensures Valid()
      ensures confirmed ==> annotations == [] && frame == Frame(math, image, [])
      ensures !confirmed ==> annotations == old(annotations) && frame == []
      ensures tool == old(tool) && color == old(color) && lineWidth == old(lineWidth) && image == old(image)
      ensures drawing == old(drawing) && startPos == old(startPos) && currentPos == old(currentPos)
    {
      frame := [];
      if confirmed {
        annotations := [];
        if image.Some? {
          frame := [ClearRect, DrawImage(image.value)];
        }
      }
    }

    /** The save button, enabled only while the list is non-empty: the
        flattened drawing and the request carrying exactly the list. */
    function SavePayload(pngBase64: string): (s: Save)
      requires annotations != []
      reads this
      ensures s.flattened == Flattened(math, image, annotations)
      ensures s.request.annotationJson == Some(AnnotationJson(Some(annotations)))
    {
      Save(Flattened(math, image, annotations), SaveRequest(annotations, pngBase64))
    }

    /** The annotated image finished loading after a save: it replaces the
        base image and is drawn alone; the list is kept. */
    method SavedImageLoaded(url: string) returns (frame: seq<Cmd>)
      requires Valid()
      modifies this
      ensures Valid() && image == Some(url) && frame == Frame(math, image, [])
      ensures tool == old(tool) && color == old(color) && lineWidth == old(lineWidth)
      ensures drawing == old(drawing) && startPos == old(startPos) && currentPos == old(currentPos)
      ensures annotations == old(annotations)
    {
      image := Some(url);
      frame := [ClearRect, DrawImage(url)];
    }
  }
}
