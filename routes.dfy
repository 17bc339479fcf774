/** The submission routes of Backend/routes/submissions.js as transitions
    of the submission collection: create (124-151), read one (181-200),
    annotate (206-287) and the report completion of generate-pdf
    (292-299, 540-555). Authentication, the `requireRole('admin')` gate,
    population of user references and the HTTP layer are not modelled;
    file-system checks, the image compositor, generated file names and the
    outcome of `save()` are inputs. */
module Routes {
  import opened Basics
  import opened Annotations
  import opened Submissions
  import opened DataUrl
  import opened Classifier
  import opened Report

  /** The status class of the response the route sends. */
  datatype Reply =
    | Ok
    | Created
    | BadRequest(message: string)
    | Forbidden(message: string)
    | NotFound(message: string)
    | ServerError(message: string)

  /** The authenticated caller. */
  datatype User = User(id: string, isAdmin: bool)

  /** The file multer stored for the `image` field. */
  datatype Upload = Upload(mimetype: string, storedName: string)

  // ---------------------------------------------------------------------
  // Create

  /** The create route for the form fields and the optional upload: a
      non-image upload is refused by the file filter (an error the default
      handler answers with 500), a missing file gives 400, a schema
      validation failure 500, otherwise the new document. */
  function CreateReply(name: string, patientId: string, email: string, note: string,
                       file: Option<Upload>, user: User): (r: Result<Submission, Reply>)
    ensures r.Success? <==>
      file.Some? && StartsWith(file.value.mimetype, "image/") &&
      Create(name, patientId, email, note, "/uploads/" + file.value.storedName, user.id).Success?
    ensures file.None? ==> r == Failure(BadRequest("Please upload an image"))
    ensures r.Success? ==>
      Valid(r.value) && r.value.status == Uploaded && r.value.createdBy == user.id &&
      r.value.originalImageUrl == "/uploads/" + file.value.storedName
  {
    if file.Some? && !StartsWith(file.value.mimetype, "image/") then
      Failure(ServerError("Only image files are allowed!"))
    else if file.None? then
      Failure(BadRequest("Please upload an image"))
    else
      match Create(name, patientId, email, note, "/uploads/" + file.value.storedName, user.id)
      case Success(s) => Success(s)
      case Failure(_) => Failure(ServerError("Failed to create submission"))
  }

  // ---------------------------------------------------------------------
  // Read one

  /** Who may read a submission: an admin, or the user who created it. */
  predicate MayRead(user: User, sub: Submission) {
    user.isAdmin || sub.createdBy == user.id
  }

  /** The single-submission route: 404 for an unknown id, 403 for a
      non-admin who is not the creator, otherwise the document. */
  function GetReply(db: map<string, Submission>, id: string, user: User): (r: Result<Submission, Reply>)
    ensures r.Success? <==> id in db && MayRead(user, db[id])
    ensures r.Success? ==> r.value == db[id]
    ensures id !in db ==> r == Failure(NotFound("Submission not found"))
    ensures id in db && !MayRead(user, db[id]) ==> r == Failure(Forbidden("Access denied"))
  {
    if id !in db then Failure(NotFound("Submission not found"))
    else if !user.isAdmin && db[id].createdBy != user.id then Failure(Forbidden("Access denied"))
    else Success(db[id])
  }

  // ---------------------------------------------------------------------
  // Annotate

  /** The request body: a missing or empty data URL is "". */
  datatype AnnotateRequest = AnnotateRequest(annotationJson: Option<AnnotationJson>, annotatedImageBase64: string)

  /** What the handler learns from outside: whether the original image file
      exists, the compositor's error if it throws, the generated base name
      of the output file, and the error of `save()` if it throws. */
  datatype AnnotateEnv = AnnotateEnv(originalExists: bool, compositeError: Option<string>,
                                     outName: string, saveError: Option<string>)

  /** Whether the request carries an overlay in the accepted data-URL form. */
  predicate HasOverlay(req: AnnotateRequest) {
    req.annotatedImageBase64 != "" && Parse(req.annotatedImageBase64).Some?
  }

  /** The `if (annotatedImageBase64)` guard adds nothing to the match: an
      overlay is accepted exactly when the string matches the data-URL
      expression. */
  lemma OverlayIffMatches(req: AnnotateRequest)
    ensures HasOverlay(req) <==> Matches(req.annotatedImageBase64)
  {
    if Matches(req.annotatedImageBase64) {
      assert req.annotatedImageBase64[..5] == "data:";
    }
  }

  /** The URL of the composited image for an accepted overlay: a file
      directly in /uploads, whatever media type the client sent, named after
      the generated base name with a non-empty extension. */
  function OverlayUrl(req: AnnotateRequest, env: AnnotateEnv): (url: string)
    requires HasOverlay(req)
    ensures StartsWith(url, "/uploads/" + env.outName + ".")
    ensures var ext := url[|env.outName| + 10..]; ext != "" && '/' !in ext
    ensures '/' !in env.outName ==> '/' !in url[9..]
  {
    "/uploads/" + env.outName + "." + Extension(Parse(req.annotatedImageBase64).value.mime)
  }

  /** The annotate handler on one found submission: the saved document, or
      the error reply when the original is missing, compositing fails or
      the save fails. */
  function AnnotateOutcome(sub: Submission, req: AnnotateRequest, env: AnnotateEnv, user: User): (r: Result<Submission, Reply>)
    ensures r.Failure? <==> (HasOverlay(req) && !(env.originalExists && env.compositeError.None?)) || env.saveError.Some?
    ensures r.Success? ==> r.value.status == Annotated && r.value.annotatedBy == Some(user.id)
    ensures r.Success? ==> r.value.annotationJson == if req.annotationJson.Some? then req.annotationJson else sub.annotationJson
    ensures r.Success? ==> r.value.annotatedImageUrl == if HasOverlay(req) then Some(OverlayUrl(req, env)) else sub.annotatedImageUrl
    ensures r.Success? ==>
      r.value.(annotatedImageUrl := sub.annotatedImageUrl, annotationJson := sub.annotationJson,
               status := sub.status, annotatedBy := sub.annotatedBy) == sub
  {
    if HasOverlay(req) && !env.originalExists then Failure(ServerError("Original image not found"))
    else if HasOverlay(req) && env.compositeError.Some? then
      Failure(ServerError("Failed to merge annotation: " + env.compositeError.value))
    else
      var withImage := if HasOverlay(req) then sub.(annotatedImageUrl := Some(OverlayUrl(req, env))) else sub;
      var withJson := if req.annotationJson.Some? then withImage.(annotationJson := req.annotationJson) else withImage;
      if env.saveError.Some? then Failure(ServerError("Failed to save annotation: " + env.saveError.value))
      else Success(withJson.(status := Annotated, annotatedBy := Some(user.id)))
  }

  // ---------------------------------------------------------------------
  // Report completion

  /** The generate-pdf route once the page is written: the report URL and
      status 'reported', or the error reply when the save fails. */
  function ReportOutcome(sub: Submission, fileName: string, saveOk: bool): (r: Result<Submission, Reply>)
    ensures r.Success? <==> saveOk
    ensures r.Success? ==> r.value == sub.(reportUrl := Some("/uploads/" + fileName), status := Reported)
    ensures r.Failure? ==> r.error == ServerError("PDF generated but failed to update submission")
  {
    if saveOk then Success(sub.(reportUrl := Some("/uploads/" + fileName), status := Reported))
    else Failure(ServerError("PDF generated but failed to update submission"))
  }

  /** The submission collection and the handlers that change it. */
  class Store {
    var submissions: map<string, Submission>

    constructor ()
      ensures submissions == map[]
    {
      submissions := map[];
    }

    /** POST / : stores the new document under the fresh id on success. */
    method CreateSubmission(id: string, name: string, patientId: string, email: string, note: string,
                            file: Option<Upload>, user: User) returns (reply: Reply)
      requires id !in submissions
      modifies this
      ensures match CreateReply(name, patientId, email, note, file, user)
        case Success(s) => reply == Created && submissions == old(submissions)[id := s]
        case Failure(e) => reply == e && submissions == old(submissions)
    {
      if file.Some? && !StartsWith(file.value.mimetype, "image/") {
        return ServerError("Only image files are allowed!");
      }
      if file.None? {
        return BadRequest("Please upload an image");
      }
      var originalImageUrl := "/uploads/" + file.value.storedName;
      var created := Create(name, patientId, email, note, originalImageUrl, user.id);
      if created.Failure? {
        return ServerError("Failed to create submission");
      }
      submissions := submissions[id := created.value];
      reply := Created;
    }

    /** POST /:id/annotate : mutates the found document field by field and
        saves it; every error path leaves the collection as it was. */
    method Annotate(id: string, req: AnnotateRequest, env: AnnotateEnv, user: User) returns (reply: Reply)
      modifies this
      ensures id !in old(submissions) ==> reply == NotFound("Submission not found") && submissions == old(submissions)
      ensures id in old(submissions) ==> match AnnotateOutcome(old(submissions)[id], req, env, user)
        case Success(s) => reply == Ok && submissions == old(submissions)[id := s]
        case Failure(e) => reply == e && submissions == old(submissions)
    {
      if id !in submissions {
        return NotFound("Submission not found");
      }
      var submission := submissions[id];
      if req.annotatedImageBase64 != "" {
        var matches := Parse(req.annotatedImageBase64);
        if matches.Some? {
          var ext := Extension(matches.value.mime);
          var outFilename := env.outName + "." + ext;
          if !env.originalExists {
            return ServerError("Original image not found");
          }
          if env.compositeError.Some? {
            return ServerError("Failed to merge annotation: " + env.compositeError.value);
          }
          submission := submission.(annotatedImageUrl := Some("/uploads/" + outFilename));
          assert "/uploads/" + outFilename == OverlayUrl(req, env);
        }
      }
      if req.annotationJson.Some? {
        submission := submission.(annotationJson := req.annotationJson);
      }
      submission := submission.(status := Annotated);
      submission := submission.(annotatedBy := Some(user.id));
      if env.saveError.Some? {
        return ServerError("Failed to save annotation: " + env.saveError.value);
      }
      submissions := submissions[id := submission];
      reply := Ok;
    }

    /** POST /:id/generate-pdf : lays out the page from the stored
        annotations, then records the report on the document. */
    method GenerateReport(id: string, fileName: string, env: PageInputs, saveOk: bool)
      returns (reply: Reply, page: seq<Item>)
      modifies this
      ensures id !in old(submissions) ==> reply == NotFound("Submission not found") && page == [] && submissions == old(submissions)
      ensures id in old(submissions) ==>
        page == Page(old(submissions)[id], ClassifyJson(old(submissions)[id].annotationJson), env)
      ensures id in old(submissions) ==> match ReportOutcome(old(submissions)[id], fileName, saveOk)
        case Success(s) => reply == Ok && submissions == old(submissions)[id := s]
        case Failure(e) => reply == e && submissions == old(submissions)
    {
      if id !in submissions {
        return NotFound("Submission not found"), [];
      }
      var submission := submissions[id];
      var colorMappings := ProcessColorCodedAnnotations(submission.annotationJson);
      page := ComposeReport(submission, colorMappings, env);
      submission := submission.(reportUrl := Some("/uploads/" + fileName));
      submission := submission.(status := Reported);
      if !saveOk {
        return ServerError("PDF generated but failed to update submission"), page;
      }
      submissions := submissions[id := submission];
      reply := Ok;
    }
  }

  // ---------------------------------------------------------------------
  // Properties of the lifecycle

  /** Annotating keeps a valid document valid: no required field is touched. */
  lemma AnnotatePreservesValid(sub: Submission, req: AnnotateRequest, env: AnnotateEnv, user: User)
    requires Valid(sub)
    ensures AnnotateOutcome(sub, req, env, user).Success? ==> Valid(AnnotateOutcome(sub, req, env, user).value)
  {
    var r := AnnotateOutcome(sub, req, env, user);
    if r.Success? {
      assert r.value.(annotatedImageUrl := sub.annotatedImageUrl, annotationJson := sub.annotationJson,
                      status := sub.status, annotatedBy := sub.annotatedBy) == sub;
    }
  }

  /** The status is not monotone: re-annotating a reported submission sets
      it back to 'annotated'. */
  lemma ReannotatingReportedRegresses(sub: Submission, req: AnnotateRequest, env: AnnotateEnv, user: User)
    requires sub.status == Reported && env.saveError.None? && !HasOverlay(req)
    ensures AnnotateOutcome(sub, req, env, user).Success?
    ensures AnnotateOutcome(sub, req, env, user).value.status == Annotated
    ensures AnnotateOutcome(sub, req, env, user).value.reportUrl == sub.reportUrl
  {
  }

  /** A data URL the parser refuses does not stop the save: the JSON and
      the status are still written and the image URL is kept. */
  lemma MalformedOverlaySkipped(sub: Submission, req: AnnotateRequest, env: AnnotateEnv, user: User)
    requires req.annotatedImageBase64 != "" && Parse(req.annotatedImageBase64).None? && env.saveError.None?
    ensures AnnotateOutcome(sub, req, env, user).Success?
    ensures AnnotateOutcome(sub, req, env, user).value.annotatedImageUrl == sub.annotatedImageUrl
    ensures AnnotateOutcome(sub, req, env, user).value.status == Annotated
  {
  }

  /** A canvas export composited onto the original is stored as a PNG. */
  lemma CanvasExportStoredAsPng(sub: Submission, payload: string, json: Option<AnnotationJson>,
                                env: AnnotateEnv, user: User)
    requires |payload| >= 1
    requires forall i :: 0 <= i < |payload| ==> payload[i] != ';' && !LineTerminator(payload[i])
    requires env.originalExists && env.compositeError.None? && env.saveError.None?
    ensures var req := AnnotateRequest(json, "data:image/png;base64," + payload);
      AnnotateOutcome(sub, req, env, user).Success? &&
      AnnotateOutcome(sub, req, env, user).value.annotatedImageUrl == Some("/uploads/" + env.outName + ".png")
  {
    var req := AnnotateRequest(json, "data:image/png;base64," + payload);
    CanvasExportParses(payload);
    PngExtension();
    assert HasOverlay(req);
    var ext := Extension(Parse(req.annotatedImageBase64).value.mime);
    assert ext == "png";
    var base := "/uploads/" + env.outName;
    assert OverlayUrl(req, env) == base + "." + ext;
    PngSuffix(base);
  }

  lemma PngSuffix(base: string)
    ensures base + "." + "png" == base + ".png"
  {
    assert "." + "png" == ".png";
  }

  /** Generating a report keeps a valid document valid and records the URL
      of the file it wrote. */
  lemma ReportedPreservesValid(sub: Submission, fileName: string)
    requires Valid(sub)
    ensures Valid(ReportOutcome(sub, fileName, true).value)
    ensures ReportOutcome(sub, fileName, true).value.reportUrl == Some("/uploads/" + fileName)
  {
  }
}
