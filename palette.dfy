/** The fixed colour -> clinical category table of the backend
    (Backend/routes/submissions.js, `getColorForProblem` and the `switch`
    of `processColorCodedAnnotations`). */
module Palette {
  import opened Basics

  /** The six clinical categories, in the key order of the `findings`
      object literal. */
  datatype Category = Stains | InflammedGums | RecededGums | Malaligned | Attrition | Crowns

  /** The categories in the fixed order of the findings object. */
  const Categories: seq<Category> :=
    [Stains, InflammedGums, RecededGums, Malaligned, Attrition, Crowns]

  /** Position of a category in `Categories`. */
  function Index(c: Category): (i: nat)
    ensures i < 6 && Categories[i] == c
  {
    match c
    case Stains => 0
    case InflammedGums => 1
    case RecededGums => 2
    case Malaligned => 3
    case Attrition => 4
    case Crowns => 5
  }

  /** The category's key in the findings and treatments objects. */
  function Name(c: Category): string {
    match c
    case Stains => "Stains"
    case InflammedGums => "Inflammed Gums"
    case RecededGums => "Receded Gums"
    case Malaligned => "Malaligned"
    case Attrition => "Attrition"
    case Crowns => "Crowns"
  }

  /** The hex colour code bound to the category. */
  function Hex(c: Category): string {
    match c
    case Stains => "#ff0000"
    case InflammedGums => "#ff5252"
    case RecededGums => "#ff6b6b"
    case Malaligned => "#ffff00"
    case Attrition => "#4caf50"
    case Crowns => "#2196f3"
  }

  /** The treatment text the classifier records for the category. */
  function TreatmentText(c: Category): string {
    match c
    case Stains => "Teeth cleaning and polishing."
    case InflammedGums => "Scaling."
    case RecededGums => "Gum surgery."
    case Malaligned => "Braces or Clear Aligner."
    case Attrition => "Filling / Night Guard."
    case Crowns => "Evaluation and possible replacement."
  }

  /** The `switch (ann.color)` of the classifier: which category, if any,
      an annotation colour denotes. Colours match by exact string equality;
      every other colour (or a missing one) is ignored. */
  function CategoryOfColor(color: string): Option<Category> {
    if color == "#ff0000" then Some(Stains)
    else if color == "#ff5252" then Some(InflammedGums)
    else if color == "#ff6b6b" then Some(RecededGums)
    else if color == "#ffff00" then Some(Malaligned)
    else if color == "#4caf50" then Some(Attrition)
    else if color == "#2196f3" then Some(Crowns)
    else None
  }

  /** `getColorForProblem(problem).color`: the colour of the category whose
      name is `problem`, or "black" for any other name. */
  function ColorForProblem(problem: string): string {
    if problem == Name(Stains) then Hex(Stains)
    else if problem == Name(InflammedGums) then Hex(InflammedGums)
    else if problem == Name(RecededGums) then Hex(RecededGums)
    else if problem == Name(Malaligned) then Hex(Malaligned)
    else if problem == Name(Attrition) then Hex(Attrition)
    else if problem == Name(Crowns) then Hex(Crowns)
    else "black"
  }

  /** A colour denotes c exactly when it is c's hex code. */
  lemma CategoryOfColorExact(color: string, c: Category)
    ensures CategoryOfColor(color) == Some(c) <==> color == Hex(c)
  {
  }

  /** A colour outside the six hex codes denotes no category. */
  lemma CategoryOfColorUnknown(color: string)
    ensures CategoryOfColor(color).None? <==> forall c :: color != Hex(c)
  {
    match CategoryOfColor(color)
    case None =>
      forall c
        ensures color != Hex(c)
      {
        CategoryOfColorExact(color, c);
      }
    case Some(d) =>
      CategoryOfColorExact(color, d);
  }

  /** The colour looked up for a category's name is its hex code. */
  lemma ColorForProblemExact(c: Category)
    ensures ColorForProblem(Name(c)) == Hex(c)
  {
  }

  /** Only a name outside the six falls back to "black". */
  lemma ColorForProblemUnknown(problem: string)
    ensures ColorForProblem(problem) == "black" <==> forall c :: problem != Name(c)
  {
    if ColorForProblem(problem) != "black" {
      assert problem == Name(Stains) || problem == Name(InflammedGums) || problem == Name(RecededGums)
          || problem == Name(Malaligned) || problem == Name(Attrition) || problem == Name(Crowns);
    } else {
      forall c
        ensures problem != Name(c)
      {
        if problem == Name(c) {
          ColorForProblemExact(c);
        }
      }
    }
  }
}
