# Dental screening submissions — a verified model

This project models the core of an oral-health screening application in
Dafny:

- **Patients upload a photo.** The backend stores it as a *submission* document.
- **Admins annotate the photo.** They draw colour-coded shapes on a canvas in the browser.
- **The backend composites the drawing.** It lays the drawing over the original and saves the shapes as JSON.
- **The backend generates a one-page PDF report.** A fixed colour table turns each coloured shape into a clinical finding ("Marked area N") and a treatment recommendation.

The model has these files:

| file | models |
|---|---|
| `basics.dfy` | `Option`/`Result`, decimal rendering, and JavaScript's `x \|\| fallback` on strings |
| `palette.dfy` | the six categories and the colour ↔ category ↔ treatment table |
| `annotation.dfy` | the persisted shapes: a freehand polyline, or a figure with a start and an end |
| `submission.dfy` | the schema: record, status enumeration, defaults, required-field validation |
| `classifier.dfy` | `processColorCodedAnnotations`, as a specification fold and as the `forEach` loop proved equal to it, with the properties of its result |
| `report.dfy` | the PDF page as the sequence of items it places (text, swatch, rule, picture at (x, y)); specification functions plus the loops that advance the `yPosition` / `treatmentYPosition` counters, proved equal to them |
| `report_bounds.dfy` | bounds and fallbacks of that layout |
| `dataurl.dfy` | the annotate route's `^data:(.+);base64,(.+)$` match (greedy media type, no line terminators) and the extension rule `split('/')[1] \|\| 'png'` |
| `routes.dfy` | the create, read-one, annotate and report-completion routes, as functions from request and environment to reply and new document, and a `Store` class whose methods update the collection |
| `render.dfy` | `drawAnnotation` / `redrawCanvas` of the annotation page, as 2D-context command sequences |
| `view.dfy` | the annotation page (`SubmissionView`): a class whose methods are the mouse and toolbar handlers, plus coordinate mapping, load and save |

JavaScript's falsy values are modelled explicitly:

- the empty string stands for a missing string;
- `0` stands for a missing line width;
- `Option` is used where the schema has no default.

Object key order is modelled by sequences: the findings object has its six keys in literal order, and treatment keys come in first-appearance order.

## Model

| member | source | states |
|---|---|---|
| Basics.Decimal | Backend/routes/submissions.js:52 | `${n}`: non-empty, all digits, no leading zero except for 0 itself, one digit exactly below 10, and the digits denote n (`DecimalValue`) |
| Basics.DecimalInjective | Backend/routes/submissions.js:52 | different numbers print differently |
| Palette.CategoryOfColorExact | Backend/routes/submissions.js:50-74 | a colour denotes category c exactly when it equals c's hex code, compared as a whole string |
| Palette.CategoryOfColorUnknown | Backend/routes/submissions.js:75-76 | a colour denotes no category iff it is none of the six codes (the `default` branch) |
| Palette.ColorForProblemExact | Backend/routes/submissions.js:23-31 | `getColorForProblem` of a category's name gives that category's colour |
| Palette.ColorForProblemUnknown | Backend/routes/submissions.js:32 | the lookup gives "black" iff the name is none of the six keys (inherited object keys are not modelled, see below) |
| Classifier.AreaLabel | Backend/routes/submissions.js:52 | every pushed label is "Marked area " followed by the decimal text of the position |
| Classifier.AreaLabelInjective | Backend/routes/submissions.js:52 | labels of different positions differ, so "Marked area N" identifies annotation N |
| Classifier.Assign | Backend/routes/submissions.js:53-73 | `treatments[c] = text` on an object: the key list is unchanged when c is already a key, else c is appended; every other entry is untouched; under distinct keys, c's value is the new text |
| Classifier.ClassifyJson | Backend/routes/submissions.js:36-48 | findings always have exactly the six keys in the fixed order; a missing `annotationJson` or annotation list gives six empty lists and no treatment |
| Classifier.ProcessColorCodedAnnotations | Backend/routes/submissions.js:36-82 | the `forEach` loop that pushes labels and assigns treatment keys computes exactly the specification fold `ClassifyJson` |
| Classifier.StepAreas | Backend/routes/submissions.js:49-77 | one annotation at position n appends n to exactly the list of its colour's category and to no other; an unknown colour changes nothing |
| Classifier.AreasArePositions | Backend/routes/submissions.js:49-77 | category c's labels after k annotations are exactly the 1-based positions, among the first k, of annotations of c's colour |
| Classifier.PositionsRange | Backend/routes/submissions.js:52 | those positions lie in 1..k |
| Classifier.PositionsIncreasing | Backend/routes/submissions.js:49-52 | those positions strictly increase |
| Classifier.PositionsMembership | Backend/routes/submissions.js:49-77 | position i+1 is listed iff annotation i has c's colour |
| Classifier.FindingsExact | Backend/routes/submissions.js:49-77 | each category's list is strictly increasing, within 1..k, and contains i+1 iff annotation i has that colour |
| Classifier.StepTotal | Backend/routes/submissions.js:49-77 | one annotation adds exactly one label in total when its colour is recognised, none otherwise |
| Classifier.TotalLabelsCount | Backend/routes/submissions.js:49-77 | the total number of labels equals the number of annotations with a recognised colour |
| Classifier.StepKeysMatch | Backend/routes/submissions.js:51-74 | one annotation keeps the treatment keys distinct, each valued with its category's fixed text, and a key iff the category has a label |
| Classifier.StepFirstAppearance | Backend/routes/submissions.js:46-74 | one annotation keeps the treatment keys ordered by their category's first label |
| Classifier.LabelsBelow | Backend/routes/submissions.js:49-52 | before annotation k is processed, every label is below k |
| Classifier.TreatmentKeysExact | Backend/routes/submissions.js:46-74 | after any prefix: treatment keys are distinct, each holds its category's fixed text (e.g. #2196f3 gives "Evaluation and possible replacement."), and a category is a key iff its findings list is non-empty, so repeats are idempotent |
| Classifier.TreatmentOrderExact | Backend/routes/submissions.js:46-74 | after any prefix, treatment keys are in order of their category's first appearance |
| Classifier.ClassifyPrefixExtend | Backend/routes/submissions.js:49 | the result for the first k annotations does not depend on later ones |
| Classifier.UnknownColourIgnored | Backend/routes/submissions.js:75-76 | appending an annotation of unknown colour leaves the whole result unchanged |
| Classifier.RecognisedAppended | Backend/routes/submissions.js:49-74 | appending an annotation of c's colour appends "Marked area \|anns\|+1" to c's list only |
| Submissions.MissingRequired | Backend/models/Submission.js:4-42 | the list of missing required paths is empty iff name, patientId, email, originalImageUrl and createdBy are all present; each of the five paths is listed iff its value is missing |
| Submissions.MissingAreRequiredPaths | Backend/models/Submission.js:4-42 | validation lists nothing but the five required path names |
| Submissions.Create | Backend/models/Submission.js:3-46 | creation fails exactly on a missing required path; otherwise the document is valid, holds the given fields, has status 'uploaded', and has no annotated image, report, annotation JSON or annotator |
| Report.TreatmentLines | Backend/routes/submissions.js:448-456 | one line per treatment key, whose swatch is the category's table colour |
| Report.PatientLineFields | Backend/routes/submissions.js:317-341 | the patient line shows "Name: ", "Patient ID: " and "Email: " each followed by its field (or "Not provided" when empty) and four spaces, at the offsets the earlier fields leave, then "Date: " and the creation date |
| Report.Pictures | Backend/routes/submissions.js:407-434 | the original thumbnail is at (30, imageY + 15) iff its URL is set and its file exists; the annotated one at (200, imageY + 15) likewise; every item lies in [imageY, imageY + 15] at x 30 or 200 |
| Report.LayOutBullets | Backend/routes/submissions.js:373-378 | the bullet `forEach` places exactly what the specification `Bullets` places, and ends its counter where it says |
| Report.LayOutGroup | Backend/routes/submissions.js:358-381 | one category group, as specified by `Group` |
| Report.LayOutGroups | Backend/routes/submissions.js:358-382 | the findings `forEach` over the six keys, as specified by `Groups` |
| Report.LayOutFindings | Backend/routes/submissions.js:355-405 | the findings block with its defaults, as specified by `FindingsSection` |
| Report.LayOutLines | Backend/routes/submissions.js:448-463 | the treatment `forEach`, as specified by `Lines` |
| Report.LayOutLegendRows | Backend/routes/submissions.js:511-526 | the legend `forEach`, as specified by `LegendRows` |
| Report.LayOutLegend | Backend/routes/submissions.js:493-527 | the legend block, as specified by `Legend` |
| Report.LayOutTreatments | Backend/routes/submissions.js:437-490 | the treatment block with its defaults, as specified by `TreatmentSection` |
| Report.ComposeReport | Backend/routes/submissions.js:302-536 | the whole page, in drawing order, as specified by `Page` |
| ReportBounds.BulletsBounds | Backend/routes/submissions.js:373-378 | every bullet is a text at x = 40 with y in [start, 400); nothing is placed from 400 on; the counter passes 400 by less than 10 |
| ReportBounds.BulletsUnclipped | Backend/routes/submissions.js:373-378 | bullets that fit are all placed, 10 apart, with the "• " prefix |
| ReportBounds.GroupBounds | Backend/routes/submissions.js:358-381 | a group lies in [y, 400); its only swatch is its category's colour at (30, y), and only when it has labels; the counter ends at most at max(y, 416) |
| ReportBounds.GroupsEnd | Backend/routes/submissions.js:355-382 | the findings counter ends at most at max(y, 416) |
| ReportBounds.GroupsBounds | Backend/routes/submissions.js:358-382 | every findings item lies in [y, 400) |
| ReportBounds.GroupsSwatches | Backend/routes/submissions.js:361-364 | every findings swatch is at x = 30 in the colour of a category that has labels |
| ReportBounds.FindingsBounds | Backend/routes/submissions.js:355-405 | every findings item lies in [160, 400); the images row starts in [160, 416] |
| ReportBounds.GroupsOfEmpty | Backend/routes/submissions.js:359 | categories without labels place nothing |
| ReportBounds.NoLabelsShowsDefaults | Backend/routes/submissions.js:385-405 | with zero labels, the block is exactly the nine default items at 160 + 10i, and the counter ends at 255 |
| ReportBounds.TotalLabelsPositive | Backend/routes/submissions.js:385 | any non-empty category makes the label total positive |
| ReportBounds.GroupsSkipEmpty | Backend/routes/submissions.js:359 | leading empty categories are skipped |
| ReportBounds.LabelsShowFirstHeader | Backend/routes/submissions.js:358-385 | with some label, no default is shown, and the block opens at 160 with the first labelled category's swatch and header |
| ReportBounds.LinesUnclipped | Backend/routes/submissions.js:448-463 | lines that fit before 700 are all placed: swatch at (370, y+25i), text at (385, y+25i) |
| ReportBounds.LegendComplete | Backend/routes/submissions.js:493-527 | a drawn legend has its title and all six entries: even index at x 30, odd at x 150, y = legendY + 15 + 15⌊i/2⌋; the 750 bound never drops one |
| ReportBounds.LegendRowsComplete | Backend/routes/submissions.js:511-526 | the legend rows from index k on, with their exact positions |
| ReportBounds.DistinctCategoriesAtMostSix | Backend/routes/submissions.js:46 | distinct object keys over six categories number at most six |
| ReportBounds.TreatmentsAtMostSix | Backend/routes/submissions.js:46-74 | the classifier gives at most six treatments |
| ReportBounds.TreatmentSectionFits | Backend/routes/submissions.js:437-490 | below an images row in [160, 416], every treatment (or every default) gets its line, each treatment's swatch is its table colour, and the counter ends by imageY + 170 |
| ReportBounds.LayoutFits | Backend/routes/submissions.js:408-495 | for at most six treatments: the images row is in [160, 416], every treatment line is drawn, the legend row is below 700 and the legend is complete |
| ReportBounds.ReportNeverClipsTreatments | Backend/routes/submissions.js:348-527 | for any saved annotation JSON, the report shows every treatment and the whole legend |
| DataUrl.LastSplit | Backend/routes/submissions.js:224 | the greatest split position not above k, or none |
| DataUrl.Parse | Backend/routes/submissions.js:224 | a string is accepted iff it matches the expression; it then is "data:" + mime + ";base64," + payload with both parts non-empty, split at the last possible marker |
| DataUrl.ParseExact | Backend/routes/submissions.js:224 | a well-formed data URL whose payload has no ';' parses back to exactly its media type and payload |
| DataUrl.WellFormedMatches | Backend/routes/submissions.js:224 | a well-formed "data:<mime>;base64,<payload>" is matched |
| DataUrl.NoLaterSplit | Backend/routes/submissions.js:224 | without ';' in the payload, no marker lies past the media type |
| DataUrl.CanvasExportParses | Backend/routes/submissions.js:224-228 | the canvas export "data:image/png;base64,<payload>" parses with media type "image/png" |
| DataUrl.GreedyMediaType | Backend/routes/submissions.js:224 | with two markers, the greedy group takes the first into the media type |
| DataUrl.IndexOf | Backend/routes/submissions.js:227 | the first index of the separator, or none when it is absent |
| DataUrl.Split | Backend/routes/submissions.js:227 | `split`: at least one piece, no piece holds the separator, joining the pieces gives the input back |
| DataUrl.SplitFirst | Backend/routes/submissions.js:227 | splitting stops at the first separator |
| DataUrl.Extension | Backend/routes/submissions.js:227 | the extension is never empty and never holds '/' |
| DataUrl.ExtensionIsSubtype | Backend/routes/submissions.js:227 | "type/subtype" gives "subtype" |
| DataUrl.ExtensionIgnoresLaterPieces | Backend/routes/submissions.js:227 | "type/subtype/more" gives "subtype" |
| DataUrl.PngExtension | Backend/routes/submissions.js:227 | "image/png" gives "png" |
| DataUrl.ExtensionWithoutSlash | Backend/routes/submissions.js:227 | a media type without '/' gives "png" |
| DataUrl.ExtensionOfTrailingSlash | Backend/routes/submissions.js:227 | a media type ending in its '/' ("image/") gives "png" |
| DataUrl.ExtensionOfEmptySubtype | Backend/routes/submissions.js:227 | an empty subtype followed by more pieces ("image//x") gives "png" |
| Routes.CreateReply | Backend/routes/submissions.js:114-150 | the create route succeeds iff an image file was uploaded and validation passes; no file gives 400 "Please upload an image"; the new document is valid, 'uploaded', owned by the caller, and points at the stored file |
| Routes.OverlayIffMatches | Backend/routes/submissions.js:222-224 | an overlay is composited exactly when the image string matches the data-URL expression; the emptiness guard adds nothing |
| Routes.OverlayUrl | Backend/routes/submissions.js:227-254 | the composited file is "/uploads/<generated name>.<ext>" with a non-empty extension without '/'; with a generated name without '/', nothing the client sends puts the file outside /uploads |
| Routes.GetReply | Backend/routes/submissions.js:183-198 | the document is returned iff it exists and the caller is an admin or its creator; otherwise 404 "Submission not found" or 403 "Access denied" |
| Routes.AnnotateOutcome | Backend/routes/submissions.js:211-282 | the annotate route fails iff an accepted overlay meets a missing original or a compositor error, or the save fails; on success: status 'annotated' (even from 'reported'), annotator recorded, JSON replaced only when sent, image URL changed only for an accepted overlay, every other field unchanged |
| Routes.ReportOutcome | Backend/routes/submissions.js:540-555 | report completion sets the report URL and status 'reported' and nothing else, or fails with "PDF generated but failed to update submission" |
| Routes.Store.CreateSubmission | Backend/routes/submissions.js:124-151 | the collection gains the new document on success and is unchanged on every error reply |
| Routes.Store.Annotate | Backend/routes/submissions.js:206-287 | 404 with no change for an unknown id; otherwise the stored document becomes the annotate outcome on success and is unchanged on failure |
| Routes.Store.GenerateReport | Backend/routes/submissions.js:292-555 | 404 with no change for an unknown id; otherwise the page is composed from the classifier's output and the document becomes the report outcome |
| Routes.AnnotatePreservesValid | Backend/routes/submissions.js:266-278 | a successful annotation keeps every required field present |
| Routes.ReannotatingReportedRegresses | Backend/routes/submissions.js:274 | re-annotating a reported submission sets its status back to 'annotated' and keeps its report URL |
| Routes.MalformedOverlaySkipped | Backend/routes/submissions.js:224-261 | a non-matching image string is skipped: the save still succeeds, the image URL is kept, and the status becomes 'annotated' |
| Routes.CanvasExportStoredAsPng | Backend/routes/submissions.js:224-254 | a composited canvas export is stored at "/uploads/<name>.png" |
| Routes.ReportedPreservesValid | Backend/routes/submissions.js:543-545 | report completion keeps a valid document valid and records the report URL |
| Render.RedrawCanvas | Frontend/health/src/pages/SubmissionView.js:111-121 | the redraw loop emits nothing without an image, otherwise clear, the image, then each annotation's drawing in list order (`Frame`) |
| Render.DrawAnnotationStyle | Frontend/health/src/pages/SubmissionView.js:124-174 | one annotation draws: its colour (#ff0000 when missing), its width (3 when missing), a fresh path, the shape's path, one stroke at the end |
| Render.EmptyShapeDrawsNoPath | Frontend/health/src/pages/SubmissionView.js:131-171 | a polyline without points and a select-tool shape add no path: only style, an empty path and its stroke |
| Render.PathHasNoStroke | Frontend/health/src/pages/SubmissionView.js:131-171 | no annotation's path strokes |
| Render.OneStrokePerAnnotation | Frontend/health/src/pages/SubmissionView.js:118-120 | a redraw strokes exactly once per annotation |
| Render.AppendDrawsLast | Frontend/health/src/pages/SubmissionView.js:292-298 | redrawing a list with one shape appended is the old redraw followed by that shape's drawing |
| Render.FlattenedIsFrame | Frontend/health/src/pages/SubmissionView.js:314-327 | the flattened save image is the redraw without its initial clear |
| Render.RectangleSpansDrag | Frontend/health/src/pages/SubmissionView.js:140-144 | a rectangle is one `rect` from the start point whose far corner is the end point, so width or height may be negative |
| Render.PolylinePath | Frontend/health/src/pages/SubmissionView.js:132-139 | a polyline of n > 0 points is one `moveTo` to the first point and n `lineTo`s |
| View.PaletteMatchesClassifier | Frontend/health/src/pages/SubmissionView.js:23-30 | dropdown option i is the backend's colour for category i |
| View.PaletteIsClassifierTable | Frontend/health/src/pages/SubmissionView.js:468-478 | the page offers exactly the colours the backend classifies |
| View.CanvasCoordinates | Frontend/health/src/pages/SubmissionView.js:176-191 | (0, 0) without a canvas; otherwise x·rectWidth = (clientX − left)·width and y·rectHeight = (clientY − top)·height, each axis scaled on its own |
| View.CoordinatesRoundTrip | Frontend/health/src/pages/SubmissionView.js:176-191 | mapping a mouse position to image pixels and back gives the mouse position |
| View.CornersMapToImage | Frontend/health/src/pages/SubmissionView.js:183-188 | the displayed box's corners map to (0, 0) and (width, height) |
| View.ImageSource | Frontend/health/src/pages/SubmissionView.js:85-89 | the annotated image is loaded when set; otherwise the original when set; neither when both are empty |
| View.LoadedAnnotations | Frontend/health/src/pages/SubmissionView.js:44-46 | a fetched submission whose JSON holds a list gives exactly that list; without one, the current list is kept |
| View.SaveRequest | Frontend/health/src/pages/SubmissionView.js:330-339 | the posted body carries exactly the current list and a PNG data URL |
| View.SaveThenReload | Frontend/health/src/pages/SubmissionView.js:44-46 | after a successful save, loading the submission gives back exactly the saved list, and the status is 'annotated' |
| View.SubmissionView.constructor | Frontend/health/src/pages/SubmissionView.js:9-33 | the initial state: freehand, #ff0000, width 3, not drawing, positions (0, 0), no annotations, no image |
| View.SubmissionView.SetTool | Frontend/health/src/pages/SubmissionView.js:433-462 | the toolbar changes only the tool |
| View.SubmissionView.SetColor | Frontend/health/src/pages/SubmissionView.js:468-470 | the dropdown changes only the colour, always to a palette colour |
| View.SubmissionView.SetLineWidth | Frontend/health/src/pages/SubmissionView.js:483-488 | the slider changes only the width, within 1..10 |
| View.SubmissionView.Load | Frontend/health/src/pages/SubmissionView.js:44-46 | a fetched submission replaces the list with its persisted list when present (even an empty one), else keeps it |
| View.SubmissionView.ImageLoaded | Frontend/health/src/pages/SubmissionView.js:63-108 | a loaded image becomes the base image; it is drawn, then the canvas is redrawn |
| View.SubmissionView.StartDrawing | Frontend/health/src/pages/SubmissionView.js:193-213 | nothing changes for a non-admin; otherwise drawing starts at the mapped point (start = current = p), and the freehand tool appends exactly one polyline [p] with the current colour and width; other tools leave the list unchanged |
| View.SubmissionView.Draw | Frontend/health/src/pages/SubmissionView.js:215-268 | a no-op unless drawing (hence admin); tracks the mouse; with no canvas mounted it stops there (the source throws at line 223), keeping the list and drawing nothing; otherwise the freehand tool appends the point to the last polyline only (length kept, earlier entries untouched) and redraws, and other tools keep the list and redraw with a preview of the shape |
| View.SubmissionView.StopDrawing | Frontend/health/src/pages/SubmissionView.js:270-303 | a no-op unless drawing; stops drawing; any tool but freehand (select included) appends exactly one shape from the start to the current position and redraws the new list; freehand keeps the list. Mouse-up and mouse-leave both call it (508-509) |
| View.SubmissionView.ClearCanvas | Frontend/health/src/pages/SubmissionView.js:372-387 | a confirmed clear empties the list and redraws only the image; otherwise nothing changes |
| View.SubmissionView.SavePayload | Frontend/health/src/pages/SubmissionView.js:310-339 | callable only with a non-empty list (the button is disabled otherwise, line 495); the flattened image is the base image then every annotation in order, and the JSON carries exactly the list |
| View.SubmissionView.SavedImageLoaded | Frontend/health/src/pages/SubmissionView.js:350-358 | the saved composite becomes the base image and is drawn alone; the list is kept |

### Behaviour of the code worth noting

- A successful annotate sets the status to 'annotated' even when the submission was already 'reported' (`Routes.ReannotatingReportedRegresses`). The status is not monotone.
- An image string that does not match the data-URL expression does not fail the request. The image is skipped, and the JSON, status and annotator are still saved (`Routes.MalformedOverlaySkipped`).
- The annotate route also assigns `annotatedAt`. That path is not in the schema, so Mongoose does not persist it, and the model has no such field.
- The default recommendation texts are not the classifier's treatment texts ("Gum Surgery." vs "Gum surgery.", "Braces or Clear Aligner" without a period, "Filling/ Night Guard."). Both lists are kept verbatim.
- The legend's `yPos < 750` check never drops an entry for any classifier output (`ReportBounds.ReportNeverClipsTreatments`).
- A non-image upload is refused by the upload filter with an error that Express's default handler answers with status 500. The route's own 400 is only for a missing file.

## Left out

- Pixel compositing (sharp), base64 decoding and the PDF writer (pdfkit fonts, text wrapping, image embedding, the write stream) are foreign libraries. The compositor's error, whether files exist and the outcome of `save()` are inputs to the routes. The page is modelled as placed items.
- `Math.sqrt`, `Math.atan2`, `Math.cos`, `Math.sin` and `Math.PI` (circle radius, arrowhead) are floating point. They are the fields of a `MathLib` parameter, so circles and arrows are modelled only up to those functions.
- Timestamps, `Date.now()`/`shortid` file names, `toLocaleDateString` and cache-busting `?t=` query strings are non-deterministic. They are parameters (`outName`, `fileName`, `createdDate`, `today`) or left out.
- Authentication, the admin-role middleware, Mongoose queries and `populate`, and HTTP status plumbing are not modelled. The caller is a `User` value; the admin-only annotate and report routes are modelled on an already authorised caller.
- The list-all and list-mine routes (`GET /` and `GET /mine`) only query and sort the collection. They hold no logic of the core and are not modelled.
- The 10 MB upload limit and the 50 MB JSON body limit are transport limits and are not modelled.
- The generate-pdf route's outer `catch` (500 "Failed to generate PDF") is left out. Only the completion after the file is written is modelled.
- React rendering, hooks and the batching of state updates are not modelled; each handler is one atomic transition on the current state. Also left out: image loading as an asynchronous event (modelled as `ImageLoaded`), alerts, `window.confirm` (a `confirmed` parameter), debug strings, and the loading flags.
- View.SubmissionView.ImageLoaded: the handler redraws the list held at the moment the fetch was issued (a stale closure), which is the empty list on first load. The model redraws the current list.
- View.SubmissionView.Draw: two paths of the source throw a TypeError after scheduling the position update. One is when no canvas is mounted; the other is when the last entry has no `points` (a persisted figure). In both cases the model keeps the new position and the list and returns no frame, rather than modelling an exception. The in-place `points.push` mutates an object shared with earlier state snapshots; the model replaces the last entry by value.
- View.SubmissionView.SavePayload: `toDataURL` encoding of the flattened canvas is a parameter (`pngBase64`).
- Palette.ColorForProblem: the source looks the name up in a plain object, so a name inherited from `Object.prototype` ("toString", "constructor", "__proto__") yields an undefined colour, not "black". The model gives "black" for every name outside the six; the route passes only category names (lines 358-361, 448-450).
- Render.PathOf is stated only through `RectangleSpansDrag`, `PolylinePath`, `EmptyShapeDrawsNoPath`, `DrawAnnotationStyle` and `PathHasNoStroke`. Circle radius and arrowhead points are given by the `MathLib` functions and carry no further property.
- View.CanvasCoordinates requires a displayed canvas box of positive size. A mouse event cannot target a box of zero size, and a zero size would be a division by zero in the source.
- The caption strings of the colour dropdown are kept in the model. Only their colour values are related to the backend table.
- The PDF footer and heading text carry no property beyond their place in `Page`.
