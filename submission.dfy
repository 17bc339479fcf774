/** The Submission document of Backend/models/Submission.js: its fields,
    the status enumeration, the defaults and the required-field check. */
module Submissions {
  import opened Basics
  import opened Annotations

  /** The `status` enumeration. */
  datatype Status = Uploaded | Annotated | Reported

  /** A stored submission. Strings that the schema leaves optional and
      without default are `Option`s; user references are user ids.
      The `createdAt`/`updatedAt` timestamps are not modelled. */
  datatype Submission = Submission(
    name: string,
    patientId: string,
    email: string,
    note: string,
    originalImageUrl: string,
    annotatedImageUrl: Option<string>,
    reportUrl: Option<string>,
    annotationJson: Option<AnnotationJson>,
    status: Status,
    createdBy: string,
    annotatedBy: Option<string>)

  /** Every required path holds a non-empty value. */
  predicate Valid(s: Submission) {
    s.name != "" && s.patientId != "" && s.email != "" && s.originalImageUrl != "" && s.createdBy != ""
  }

  /** The schema's required paths, in schema order. */
  const RequiredPaths: seq<string> := ["name", "patientId", "email", "originalImageUrl", "createdBy"]

  /** The required paths that are missing, in schema order. A missing string
      is undefined or empty: the required validator rejects both. */
  function MissingRequired(name: string, patientId: string, email: string,
                           originalImageUrl: string, createdBy: string): (missing: seq<string>)
    ensures missing == [] <==>
      name != "" && patientId != "" && email != "" && originalImageUrl != "" && createdBy != ""
    ensures "name" in missing <==> name == ""
    ensures "patientId" in missing <==> patientId == ""
    ensures "email" in missing <==> email == ""
    ensures "originalImageUrl" in missing <==> originalImageUrl == ""
    ensures "createdBy" in missing <==> createdBy == ""
  {
    (if name == "" then ["name"] else [])
    + (if patientId == "" then ["patientId"] else [])
    + (if email == "" then ["email"] else [])
    + (if originalImageUrl == "" then ["originalImageUrl"] else [])
    + (if createdBy == "" then ["createdBy"] else [])
  }

  /** Validation reports nothing but required paths. */
  lemma MissingAreRequiredPaths(name: string, patientId: string, email: string,
                                originalImageUrl: string, createdBy: string)
    ensures forall p :: p in MissingRequired(name, patientId, email, originalImageUrl, createdBy) ==> p in RequiredPaths
  {
    var missing := MissingRequired(name, patientId, email, originalImageUrl, createdBy);
    forall p | p in missing
      ensures p in RequiredPaths
    {
      assert p == "name" || p == "patientId" || p == "email" || p == "originalImageUrl" || p == "createdBy";
      assert RequiredPaths[0] == "name" && RequiredPaths[1] == "patientId" && RequiredPaths[2] == "email";
      assert RequiredPaths[3] == "originalImageUrl" && RequiredPaths[4] == "createdBy";
    }
  }

  /** `Submission.create(...)`: validation against the schema, then a new
      document with the defaults: note '' when not given, status 'uploaded',
      and no annotated image, report, annotation JSON or annotator. */
  function Create(name: string, patientId: string, email: string, note: string,
                  originalImageUrl: string, createdBy: string): (r: Result<Submission, seq<string>>)
    ensures r.Failure? <==> MissingRequired(name, patientId, email, originalImageUrl, createdBy) != []
    ensures r.Failure? ==> r.error == MissingRequired(name, patientId, email, originalImageUrl, createdBy)
    ensures r.Success? ==> Valid(r.value) && r.value.status == Uploaded
    ensures r.Success? ==>
      r.value.name == name && r.value.patientId == patientId && r.value.email == email &&
      r.value.note == note && r.value.originalImageUrl == originalImageUrl && r.value.createdBy == createdBy
    ensures r.Success? ==>
      r.value.annotatedImageUrl.None? && r.value.reportUrl.None? &&
      r.value.annotationJson.None? && r.value.annotatedBy.None?
  {
    var missing := MissingRequired(name, patientId, email, originalImageUrl, createdBy);
    if missing != [] then Failure(missing)
    else Success(Submission(name, patientId, email, note, originalImageUrl,
                            None, None, None, Uploaded, createdBy, None))
  }
}
