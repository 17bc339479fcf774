/** The single-page PDF of the generate-pdf route
    (Backend/routes/submissions.js:302-536), as the sequence of items it
    places: texts, 8x8 colour swatches, horizontal rules and thumbnails,
    each with its (x, y) position. Fonts, wrapping and the PDF writer are
    not modelled. */
module Report {
  import opened Basics
  import opened Palette
  import opened Classifier
  import opened Submissions

  datatype Item =
    | Text(text: string, x: int, y: int)
    | Swatch(color: string, x: int, y: int)   // `doc.rect(x, y, 8, 8).fill(color)`
    | Rule(x: int, y: int)                    // a line from (x, y) to (565, y)
    | Picture(url: string, x: int, y: int)    // a 150x100 thumbnail

  /** The vertical bounds the route checks. */
  const FindingsBound := 400
  const TreatmentsBound := 700
  const LegendRowBound := 750

  const Bullet := "\U{2022} "

  /** The screening items shown when no annotation was recognised. */
  const DefaultScreeningItems: seq<string> := [
    "Upper Teeth", "Front Teeth", "Lower Teeth", "Inflammed / Red gums",
    "Malaligned", "Receded gums", "Stains", "Attrition", "Crowns"]

  datatype Recommendation = Recommendation(problem: string, treatment: string, color: string)

  /** The recommendations shown when there is no treatment. */
  const DefaultRecommendations: seq<Recommendation> := [
    Recommendation("Inflammed/Red gums", "Scaling.", "#ff5252"),
    Recommendation("Malaligned", "Braces or Clear Aligner", "#ffff00"),
    Recommendation("Receded gums", "Gum Surgery.", "#ff6b6b"),
    Recommendation("Stains", "Teeth cleaning and polishing.", "#ff0000"),
    Recommendation("Attrition", "Filling/ Night Guard.", "#4caf50"),
    Recommendation("Crowns", "Evaluation and possible replacement.", "#2196f3")]

  datatype LegendEntry = LegendEntry(color: string, name: string)

  /** The legend, listing every category whatever the submission holds. */
  const LegendItems: seq<LegendEntry> := [
    LegendEntry("#ff0000", "Red: Stains"),
    LegendEntry("#ff5252", "Cherry: Inflammed Gums"),
    LegendEntry("#ff6b6b", "Light Red: Receded Gums"),
    LegendEntry("#ffff00", "Yellow: Malaligned"),
    LegendEntry("#4caf50", "Green: Attrition"),
    LegendEntry("#2196f3", "Blue: Crowns")]

  function Max(a: int, b: int): int { if a < b then b else a }

  // ---------------------------------------------------------------------
  // Findings block

  /** What a forEach placed, and where its y counter ended. */
  datatype Placed = Placed(items: seq<Item>, y: int)

  /** A forEach placing one bullet per text while y < 400, 10 apart. */
  function Bullets(texts: seq<string>, y: int): Placed
    decreases |texts|
  {
    if texts == [] then Placed([], y)
    else if y < FindingsBound then
      var rest := Bullets(texts[1..], y + 10);
      Placed([Text(Bullet + texts[0], 40, y)] + rest.items, rest.y)
    else Bullets(texts[1..], y)
  }

  /** The "Marked area N" texts of a category. */
  function Labels(areas: seq<nat>): seq<string> {
    seq(|areas|, i requires 0 <= i < |areas| => AreaLabel(areas[i]))
  }

  /** A category's swatch and its "<problem>:" heading at y. */
  function Header(c: Category, y: int): seq<Item> {
    var problem := Name(c);
    [Swatch(ColorForProblem(problem), 30, y), Text(problem + ":", 45, y)]
  }

  /** One findings entry: when it has labels and y < 400, its header, its
      bullets from y + 12 and 5 more; otherwise nothing. */
  function Group(e: Entry, y: int): Placed {
    if |e.areas| > 0 && y < FindingsBound then
      var bullets := Bullets(Labels(e.areas), y + 12);
      Placed(Header(e.category, y) + bullets.items, bullets.y + 5)
    else Placed([], y)
  }

  /** The forEach over the findings entries. */
  function Groups(findings: seq<Entry>, y: int): Placed
    decreases |findings|
  {
    if findings == [] then Placed([], y)
    else
      var first := Group(findings[0], y);
      var rest := Groups(findings[1..], first.y);
      Placed(first.items + rest.items, rest.y)
  }

  /** The findings block from y = 160, with the default screening items
      when no label was recorded at all. */
  function FindingsSection(findings: seq<Entry>): Placed {
    var groups := Groups(findings, 160);
    if TotalLabels(findings) == 0 && groups.y < FindingsBound then
      var defaults := Bullets(DefaultScreeningItems, groups.y);
      Placed(groups.items + defaults.items, defaults.y + 5)
    else groups
  }

  // ---------------------------------------------------------------------
  // Pictures, treatments, legend

  /** Where the thumbnails come from: whether each file is on disk. */
  datatype PageInputs = PageInputs(createdDate: string, today: string,
                                   originalOnDisk: bool, annotatedOnDisk: bool)

  /** The two thumbnails at imageY, each only when its URL is set and its
      file exists. */
  function Pictures(sub: Submission, imageY: int, env: PageInputs): (items: seq<Item>)
    ensures Picture(sub.originalImageUrl, 30, imageY + 15) in items <==> sub.originalImageUrl != "" && env.originalOnDisk
    ensures sub.annotatedImageUrl.Some? ==>
      (Picture(sub.annotatedImageUrl.value, 200, imageY + 15) in items <==>
       sub.annotatedImageUrl.value != "" && env.annotatedOnDisk)
    ensures sub.annotatedImageUrl.None? ==> forall it :: it in items ==> it.x == 30
    ensures forall it :: it in items ==> imageY <= it.y <= imageY + 15 && (it.x == 30 || it.x == 200)
  {
    (if sub.originalImageUrl != "" && env.originalOnDisk
     then [Text("Original:", 30, imageY), Picture(sub.originalImageUrl, 30, imageY + 15)] else [])
    + (if sub.annotatedImageUrl.Some? && sub.annotatedImageUrl.value != "" && env.annotatedOnDisk
       then [Text("Annotated:", 200, imageY), Picture(sub.annotatedImageUrl.value, 200, imageY + 15)]
       else [])
  }

  /** One treatment line: its swatch colour and its text. */
  datatype Line = Line(color: string, text: string)

  /** The lines of the classifier's treatments: "<problem>: <treatment>",
      with the swatch colour looked up by problem name. */
  function TreatmentLines(ts: seq<Treatment>): (lines: seq<Line>)
    ensures |lines| == |ts|
    ensures forall i :: 0 <= i < |ts| ==> lines[i].color == Hex(ts[i].category)
  {
    seq(|ts|, i requires 0 <= i < |ts| =>
      Line(ColorForProblem(Name(ts[i].category)), Name(ts[i].category) + ": " + ts[i].text))
  }

  /** The lines of the default recommendations. */
  function RecommendationLines(recs: seq<Recommendation>): (lines: seq<Line>)
    ensures |lines| == |recs|
    ensures forall i :: 0 <= i < |recs| ==> lines[i].color == recs[i].color
  {
    seq(|recs|, i requires 0 <= i < |recs| =>
      Line(recs[i].color, recs[i].problem + ": " + recs[i].treatment))
  }

  /** A forEach placing one swatch and text per line while y < 700, 25 apart. */
  function Lines(lines: seq<Line>, y: int): Placed
    decreases |lines|
  {
    if lines == [] then Placed([], y)
    else if y < TreatmentsBound then
      var rest := Lines(lines[1..], y + 25);
      Placed([Swatch(lines[0].color, 370, y), Text(lines[0].text, 385, y)] + rest.items, rest.y)
    else Lines(lines[1..], y)
  }

  /** The treatment block below its heading at imageY, with the default
      recommendations when the treatments object is empty. */
  function TreatmentSection(ts: seq<Treatment>, imageY: int): Placed {
    var lines := Lines(TreatmentLines(ts), imageY + 20);
    if |ts| == 0 && lines.y < TreatmentsBound then
      var defaults := Lines(RecommendationLines(DefaultRecommendations), lines.y);
      Placed(lines.items + defaults.items, defaults.y)
    else lines
  }

  /** Legend entries from index i on, in two columns of rows 15 apart. */
  function LegendRows(entries: seq<LegendEntry>, i: nat, rowY: int): seq<Item>
    decreases |entries| - i
  {
    if i >= |entries| then []
    else LegendRow(entries[i], i, rowY) + LegendRows(entries, i + 1, rowY)
  }

  /** Entry i of the legend: column by parity, row by half the index,
      skipped at or beyond y = 750. */
  function LegendRow(entry: LegendEntry, i: nat, rowY: int): seq<Item> {
    var x := if i % 2 == 0 then 30 else 150;
    var y := rowY + 15 * (i / 2);
    if y < LegendRowBound then [Swatch(entry.color, x, y), Text(entry.name, x + 15, y)] else []
  }

  /** The legend with the given entries at legendY, drawn only when
      legendY < 700. */
  function Legend(entries: seq<LegendEntry>, legendY: int): seq<Item> {
    if legendY < TreatmentsBound then [Text("Color Legend:", 30, legendY)] + LegendRows(entries, 0, legendY + 15)
    else []
  }

  // ---------------------------------------------------------------------
  // The page

  /** The text shown for a missing patient field. */
  const NotProvided := "Not provided"

  /** The patient line, each field falling back to "Not provided". */
  function PatientLine(sub: Submission, date: string): string {
    ("Name: " + Shown(sub.name) + "    ")
    + ("Patient ID: " + Shown(sub.patientId) + "    ")
    + ("Email: " + Shown(sub.email) + "    ")
    + ("Date: " + date)
  }

  /** The text shown for a patient field. */
  function Shown(field: string): (shown: string)
    ensures shown != "" && (field != "" ==> shown == field) && (field == "" ==> shown == NotProvided)
  {
    OrElse(field, NotProvided)
  }

  /** t occurs in s at index k. */
  predicate OccursAt(s: string, t: string, k: int) {
    0 <= k && k + |t| <= |s| && s[k..k + |t|] == t
  }

  /** Each of four consecutive parts occurs where the earlier ones end. */
  lemma OccursInFourParts(a: string, b: string, c: string, d: string)
    ensures OccursAt(a + b + c + d, a, 0)
    ensures OccursAt(a + b + c + d, b, |a|)
    ensures OccursAt(a + b + c + d, c, |a| + |b|)
    ensures OccursAt(a + b + c + d, d, |a| + |b| + |c|)
  {
    var s := a + b + c + d;
    assert s[..|a|] == a;
    assert s[|a|..|a| + |b|] == b;
    assert s[|a| + |b|..|a| + |b| + |c|] == c;
    assert s[|a| + |b| + |c|..] == d;
  }

  /** Each patient field shows its value, or "Not provided" when it is
      empty, after its own caption; the creation date closes the line. */
  lemma PatientLineFields(sub: Submission, date: string)
    ensures OccursAt(PatientLine(sub, date), "Name: " + Shown(sub.name) + "    ", 0)
    ensures OccursAt(PatientLine(sub, date), "Patient ID: " + Shown(sub.patientId) + "    ",
                     10 + |Shown(sub.name)|)
    ensures OccursAt(PatientLine(sub, date), "Email: " + Shown(sub.email) + "    ",
                     26 + |Shown(sub.name)| + |Shown(sub.patientId)|)
    ensures OccursAt(PatientLine(sub, date), "Date: " + date,
                     37 + |Shown(sub.name)| + |Shown(sub.patientId)| + |Shown(sub.email)|)
  {
    NameFieldShown(sub, date);
    PatientIdFieldShown(sub, date);
    EmailFieldShown(sub, date);
    DateClosesLine(sub, date);
  }

  lemma NameFieldShown(sub: Submission, date: string)
    ensures OccursAt(PatientLine(sub, date), "Name: " + Shown(sub.name) + "    ", 0)
  {
    OccursInFourParts("Name: " + Shown(sub.name) + "    ", "Patient ID: " + Shown(sub.patientId) + "    ",
                      "Email: " + Shown(sub.email) + "    ", "Date: " + date);
  }

  lemma PatientIdFieldShown(sub: Submission, date: string)
    ensures OccursAt(PatientLine(sub, date), "Patient ID: " + Shown(sub.patientId) + "    ",
                     10 + |Shown(sub.name)|)
  {
    OccursInFourParts("Name: " + Shown(sub.name) + "    ", "Patient ID: " + Shown(sub.patientId) + "    ",
                      "Email: " + Shown(sub.email) + "    ", "Date: " + date);
  }

  lemma EmailFieldShown(sub: Submission, date: string)
    ensures OccursAt(PatientLine(sub, date), "Email: " + Shown(sub.email) + "    ",
                     26 + |Shown(sub.name)| + |Shown(sub.patientId)|)
  {
    OccursInFourParts("Name: " + Shown(sub.name) + "    ", "Patient ID: " + Shown(sub.patientId) + "    ",
                      "Email: " + Shown(sub.email) + "    ", "Date: " + date);
  }

  lemma DateClosesLine(sub: Submission, date: string)
    ensures OccursAt(PatientLine(sub, date), "Date: " + date,
                     37 + |Shown(sub.name)| + |Shown(sub.patientId)| + |Shown(sub.email)|)
  {
    OccursInFourParts("Name: " + Shown(sub.name) + "    ", "Patient ID: " + Shown(sub.patientId) + "    ",
                      "Email: " + Shown(sub.email) + "    ", "Date: " + date);
  }

  /** The positions the layout computes. */
  datatype Layout = Layout(findings: seq<Item>, imageY: int, treatments: seq<Item>, legendY: int)

  function LayoutOf(cl: Classification): Layout {
    var findings := FindingsSection(cl.findings);
    var imageY := Max(findings.y, 160);
    var treatments := TreatmentSection(cl.treatments, imageY);
    Layout(findings.items, imageY, treatments.items, Max(imageY + 130, treatments.y + 10))
  }

  /** Everything the route places on the page, in drawing order. */
  function Page(sub: Submission, cl: Classification, env: PageInputs): seq<Item> {
    var l := LayoutOf(cl);
    Heading(sub, env)
    + l.findings
    + Pictures(sub, l.imageY, env)
    + [Text("TREATMENT RECOMMENDATIONS:", 370, l.imageY)]
    + l.treatments
    + Legend(LegendItems, l.legendY)
    + Footer(env)
  }

  /** The title, the patient line between two rules, and the report heading. */
  function Heading(sub: Submission, env: PageInputs): seq<Item> {
    [Text("Oral Health Screening Report", 30, 30), Rule(30, 55),
     Text(PatientLine(sub, env.createdDate), 30, 65), Rule(30, 125),
     Text("SCREENING REPORT:", 30, 140)]
  }

  function Footer(env: PageInputs): seq<Item> {
    [Text("Report generated on " + env.today + " by OralVis Healthcare System", 30, 780)]
  }

  // ---------------------------------------------------------------------
  // The layout code: loops advancing the y counters

  /** The bullet forEach. */
  method LayOutBullets(texts: seq<string>, y0: int) returns (items: seq<Item>, y: int)
    ensures Placed(items, y) == Bullets(texts, y0)
  {
    items, y := [], y0;
    var i := 0;
    assert texts[i..] == texts;
    while i < |texts|
      invariant i <= |texts|
      invariant Bullets(texts, y0) == Placed(items + Bullets(texts[i..], y).items, Bullets(texts[i..], y).y)
    {
      assert texts[i..][1..] == texts[i + 1..];
      if y < FindingsBound {
        items := items + [Text(Bullet + texts[i], 40, y)];
        y := y + 10;
      }
      i := i + 1;
    }
    assert texts[i..] == [];
  }

  /** The body of the findings forEach for one entry. */
  method LayOutGroup(e: Entry, y0: int) returns (items: seq<Item>, y: int)
    ensures Placed(items, y) == Group(e, y0)
  {
    if |e.areas| > 0 && y0 < FindingsBound {
      var bullets, bulletsY := LayOutBullets(Labels(e.areas), y0 + 12);
      items, y := Header(e.category, y0) + bullets, bulletsY + 5;
      GroupOfBullets(e, y0, bullets, bulletsY);
    } else {
      items, y := [], y0;
      GroupOfNothing(e, y0);
    }
  }

  /** A group without labels, or at or below 400, places nothing. */
  lemma GroupOfNothing(e: Entry, y: int)
    requires !(|e.areas| > 0 && y < FindingsBound)
    ensures Group(e, y) == Placed([], y)
  {
  }

  /** A group is its header followed by its bullets. */
  lemma GroupOfBullets(e: Entry, y: int, bullets: seq<Item>, bulletsY: int)
    requires |e.areas| > 0 && y < FindingsBound
    requires Placed(bullets, bulletsY) == Bullets(Labels(e.areas), y + 12)
    ensures Group(e, y) == Placed(Header(e.category, y) + bullets, bulletsY + 5)
  {
  }

  /** The findings forEach. */
  method LayOutGroups(findings: seq<Entry>, y0: int) returns (items: seq<Item>, y: int)
    ensures Placed(items, y) == Groups(findings, y0)
  {
    items, y := [], y0;
    var i := 0;
    assert findings[i..] == findings;
    while i < |findings|
      invariant i <= |findings|
      invariant Groups(findings, y0) == Placed(items + Groups(findings[i..], y).items, Groups(findings[i..], y).y)
    {
      assert findings[i..][1..] == findings[i + 1..];
      var group;
      group, y := LayOutGroup(findings[i], y);
      items := items + group;
      i := i + 1;
    }
    assert findings[i..] == [];
  }

  /** The findings block: the forEach from y = 160, then the default items. */
  method LayOutFindings(findings: seq<Entry>) returns (items: seq<Item>, y: int)
    ensures Placed(items, y) == FindingsSection(findings)
  {
    items, y := LayOutGroups(findings, 160);
    if TotalLabels(findings) == 0 && y < FindingsBound {
      var defaults;
      defaults, y := LayOutBullets(DefaultScreeningItems, y);
      items := items + defaults;
      y := y + 5;
    }
  }

  /** The treatment-line forEach. */
  method LayOutLines(lines: seq<Line>, y0: int) returns (items: seq<Item>, y: int)
    ensures Placed(items, y) == Lines(lines, y0)
  {
    items, y := [], y0;
    var i := 0;
    assert lines[i..] == lines;
    while i < |lines|
      invariant i <= |lines|
      invariant Lines(lines, y0) == Placed(items + Lines(lines[i..], y).items, Lines(lines[i..], y).y)
    {
      assert lines[i..][1..] == lines[i + 1..];
      if y < TreatmentsBound {
        items := items + [Swatch(lines[i].color, 370, y), Text(lines[i].text, 385, y)];
        y := y + 25;
      }
      i := i + 1;
    }
    assert lines[i..] == [];
  }

  /** The forEach over the legend entries. */
  method LayOutLegendRows(entries: seq<LegendEntry>, rowY: int) returns (rows: seq<Item>)
    ensures rows == LegendRows(entries, 0, rowY)
  {
    rows := [];
    var index := 0;
    while index < |entries|
      invariant index <= |entries|
      invariant LegendRows(entries, 0, rowY) == rows + LegendRows(entries, index, rowY)
    {
      rows := rows + LegendRow(entries[index], index, rowY);
      index := index + 1;
    }
  }

  /** The legend: its heading and its rows, when legendY < 700. */
  method LayOutLegend(entries: seq<LegendEntry>, legendY: int) returns (items: seq<Item>)
    ensures items == Legend(entries, legendY)
  {
    items := [];
    if legendY < TreatmentsBound {
      var rows := LayOutLegendRows(entries, legendY + 15);
      items := [Text("Color Legend:", 30, legendY)] + rows;
    }
  }

  /** The treatment block: the forEach from imageY + 20, then the default
      recommendations. */
  method LayOutTreatments(ts: seq<Treatment>, imageY: int) returns (items: seq<Item>, y: int)
    ensures Placed(items, y) == TreatmentSection(ts, imageY)
  {
    items, y := LayOutLines(TreatmentLines(ts), imageY + 20);
    if |ts| == 0 && y < TreatmentsBound {
      var defaults;
      defaults, y := LayOutLines(RecommendationLines(DefaultRecommendations), y);
      items := items + defaults;
    }
  }

  /** The page body of the generate-pdf route, from the title to the footer. */
  method ComposeReport(sub: Submission, cl: Classification, env: PageInputs) returns (items: seq<Item>)
    ensures items == Page(sub, cl, env)
  {
    var findings, yPosition := LayOutFindings(cl.findings);
    var imageY := Max(yPosition, 160);
    var treatments, treatmentYPosition := LayOutTreatments(cl.treatments, imageY);
    var legend := LayOutLegend(LegendItems, Max(imageY + 130, treatmentYPosition + 10));
    assert LayoutOf(cl) == Layout(findings, imageY, treatments, Max(imageY + 130, treatmentYPosition + 10));
    items := Heading(sub, env) + findings + Pictures(sub, imageY, env)
      + [Text("TREATMENT RECOMMENDATIONS:", 370, imageY)] + treatments + legend + Footer(env);
  }
}
