/** What the layout of the report guarantees: where the findings block
    ends, when the default lists appear, which categories get a header,
    and that the treatment lines and the legend are never clipped for a
    classification the backend can produce. */
module ReportBounds {
  import opened Palette
  import opened Classifier
  import opened Report
  import opened Annotations
  import opened Basics

  /** The bullets all lie in [y, 400), and the counter moves past 400 by
      less than one bullet step. */
  lemma {:induction false} BulletsBounds(texts: seq<string>, y: int)
    ensures forall it :: it in Bullets(texts, y).items ==> it.Text? && it.x == 40 && y <= it.y < FindingsBound
    ensures y <= Bullets(texts, y).y
    ensures y < FindingsBound ==> Bullets(texts, y).y < FindingsBound + 10
    ensures y >= FindingsBound ==> Bullets(texts, y) == Placed([], y)
    decreases |texts|
  {
    if texts != [] {
      if y < FindingsBound {
        BulletsBounds(texts[1..], y + 10);
      } else {
        BulletsBounds(texts[1..], y);
      }
    }
  }

  /** Bullets that fit before 400 are all placed, 10 apart. */
  lemma {:induction false} BulletsUnclipped(texts: seq<string>, y: int)
    requires y + 10 * (|texts| - 1) < FindingsBound
    ensures Bullets(texts, y).y == y + 10 * |texts|
    ensures |Bullets(texts, y).items| == |texts|
    ensures forall i :: 0 <= i < |texts| ==> Bullets(texts, y).items[i] == Text(Bullet + texts[i], 40, y + 10 * i)
    decreases |texts|
  {
    if texts != [] {
      BulletsUnclipped(texts[1..], y + 10);
      var rest := Bullets(texts[1..], y + 10).items;
      forall i | 0 < i < |texts|
        ensures Bullets(texts, y).items[i] == Text(Bullet + texts[i], 40, y + 10 * i)
      {
        assert Bullets(texts, y).items[i] == rest[i - 1];
        assert texts[1..][i - 1] == texts[i];
      }
    }
  }

  /** One group lies in [y, 400), its only swatch is the header's in the
      category colour, and it ends the counter at most at 416. */
  lemma GroupBounds(e: Entry, y: int)
    ensures forall it :: it in Group(e, y).items ==> y <= it.y < FindingsBound
    ensures forall it :: it in Group(e, y).items && it.Swatch? ==> it == Swatch(Hex(e.category), 30, y) && e.areas != []
    ensures y <= Group(e, y).y <= Max(y, FindingsBound + 16)
  {
    if |e.areas| > 0 && y < FindingsBound {
      var bullets := Bullets(Labels(e.areas), y + 12);
      BulletsBounds(Labels(e.areas), y + 12);
      ColorForProblemExact(e.category);
      var header := Header(e.category, y);
      assert header == [Swatch(Hex(e.category), 30, y), Text(Name(e.category) + ":", 45, y)];
      assert Group(e, y) == Placed(header + bullets.items, bullets.y + 5);
      if y + 12 < FindingsBound {
        assert bullets.y < FindingsBound + 10;
      } else {
        assert bullets.y == y + 12;
      }
      assert Group(e, y).y <= FindingsBound + 16;
      forall it | it in header + bullets.items
        ensures y <= it.y < FindingsBound
        ensures it.Swatch? ==> it == Swatch(Hex(e.category), 30, y)
      {
        if it !in header {
          assert it in bullets.items;
        }
      }
    }
  }

  /** The findings counter ends at most at 416. */
  lemma {:induction false} GroupsEnd(findings: seq<Entry>, y: int)
    ensures y <= Groups(findings, y).y <= Max(y, FindingsBound + 16)
    decreases |findings|
  {
    if findings != [] {
      GroupBounds(findings[0], y);
      GroupsEnd(findings[1..], Group(findings[0], y).y);
    }
  }

  /** The findings groups lie in [y, 400). */
  lemma {:induction false} GroupsBounds(findings: seq<Entry>, y: int)
    ensures forall it :: it in Groups(findings, y).items ==> y <= it.y < FindingsBound
    decreases |findings|
  {
    if findings != [] {
      var first := Group(findings[0], y);
      GroupBounds(findings[0], y);
      GroupsBounds(findings[1..], first.y);
    }
  }

  /** Each swatch of the findings block is in the colour of a category
      that has labels. */
  lemma {:induction false} GroupsSwatches(findings: seq<Entry>, y: int)
    ensures forall it :: it in Groups(findings, y).items && it.Swatch? ==>
      it.x == 30 && exists i :: 0 <= i < |findings| && findings[i].areas != [] && it.color == Hex(findings[i].category)
    decreases |findings|
  {
    if findings != [] {
      var first := Group(findings[0], y);
      GroupBounds(findings[0], y);
      GroupsSwatches(findings[1..], first.y);
      var rest := Groups(findings[1..], first.y).items;
      forall it | it in first.items + rest && it.Swatch?
        ensures it.x == 30
        ensures exists i :: 0 <= i < |findings| && findings[i].areas != [] && it.color == Hex(findings[i].category)
      {
        if it in first.items {
          assert findings[0].areas != [] && it.color == Hex(findings[0].category);
        } else {
          var j :| 0 <= j < |findings[1..]| && findings[1..][j].areas != [] && it.color == Hex(findings[1..][j].category);
          assert findings[j + 1] == findings[1..][j];
        }
      }
    }
  }

  /** Every item of the findings block lies in [160, 400), and the images
      row that follows starts no lower than 416. */
  lemma FindingsBounds(findings: seq<Entry>)
    ensures forall it :: it in FindingsSection(findings).items ==> 160 <= it.y < FindingsBound
    ensures 160 <= FindingsSection(findings).y <= FindingsBound + 16
  {
    GroupsBounds(findings, 160);
    GroupsEnd(findings, 160);
    var groups := Groups(findings, 160);
    if TotalLabels(findings) == 0 && groups.y < FindingsBound {
      BulletsBounds(DefaultScreeningItems, groups.y);
    }
  }

  /** Categories without labels place nothing. */
  lemma {:induction false} GroupsOfEmpty(findings: seq<Entry>, y: int)
    requires TotalLabels(findings) == 0
    ensures Groups(findings, y) == Placed([], y)
    decreases |findings|
  {
    if findings != [] {
      GroupsOfEmpty(findings[1..], y);
    }
  }

  /** With no label at all, the block is the nine default screening items,
      10 apart from y = 160. */
  lemma NoLabelsShowsDefaults(findings: seq<Entry>)
    requires TotalLabels(findings) == 0
    ensures |FindingsSection(findings).items| == |DefaultScreeningItems|
    ensures forall i :: 0 <= i < |DefaultScreeningItems| ==>
      FindingsSection(findings).items[i] == Text(Bullet + DefaultScreeningItems[i], 40, 160 + 10 * i)
    ensures FindingsSection(findings).y == 255
  {
    GroupsOfEmpty(findings, 160);
    BulletsUnclipped(DefaultScreeningItems, 160);
  }

  lemma {:induction false} TotalLabelsPositive(findings: seq<Entry>, j: nat)
    requires j < |findings| && findings[j].areas != []
    ensures TotalLabels(findings) > 0
    decreases j
  {
    if j > 0 {
      TotalLabelsPositive(findings[1..], j - 1);
    }
  }

  lemma {:induction false} GroupsSkipEmpty(findings: seq<Entry>, j: nat, y: int)
    requires j <= |findings|
    requires forall i :: 0 <= i < j ==> findings[i].areas == []
    ensures Groups(findings, y) == Groups(findings[j..], y)
    decreases j
  {
    if j > 0 {
      GroupsSkipEmpty(findings[1..], j - 1, y);
      assert findings[1..][j - 1..] == findings[j..];
    }
  }

  /** With some label, no default item is shown and the block opens with
      the header of the first category that has one. */
  lemma LabelsShowFirstHeader(findings: seq<Entry>, j: nat)
    requires j < |findings| && findings[j].areas != []
    requires forall i :: 0 <= i < j ==> findings[i].areas == []
    ensures FindingsSection(findings) == Groups(findings, 160)
    ensures |FindingsSection(findings).items| >= 2 && FindingsSection(findings).items[..2] == Header(findings[j].category, 160)
  {
    TotalLabelsPositive(findings, j);
    GroupsSkipEmpty(findings, j, 160);
    var first := Group(findings[j], 160);
    assert first.items[..2] == Header(findings[j].category, 160);
    assert Groups(findings[j..], 160).items == first.items + Groups(findings[j..][1..], first.y).items;
  }

  /** Lines that fit before 700 are all placed, 25 apart. */
  lemma {:induction false} LinesUnclipped(lines: seq<Line>, y: int)
    requires y + 25 * (|lines| - 1) < TreatmentsBound
    ensures Lines(lines, y).y == y + 25 * |lines|
    ensures |Lines(lines, y).items| == 2 * |lines|
    ensures forall i :: 0 <= i < |lines| ==>
      Lines(lines, y).items[2 * i] == Swatch(lines[i].color, 370, y + 25 * i) &&
      Lines(lines, y).items[2 * i + 1] == Text(lines[i].text, 385, y + 25 * i)
    decreases |lines|
  {
    if lines != [] {
      LinesUnclipped(lines[1..], y + 25);
      var rest := Lines(lines[1..], y + 25).items;
      forall i | 0 < i < |lines|
        ensures Lines(lines, y).items[2 * i] == Swatch(lines[i].color, 370, y + 25 * i)
        ensures Lines(lines, y).items[2 * i + 1] == Text(lines[i].text, 385, y + 25 * i)
      {
        assert Lines(lines, y).items[2 * i] == rest[2 * (i - 1)];
        assert Lines(lines, y).items[2 * i + 1] == rest[2 * (i - 1) + 1];
        assert lines[1..][i - 1] == lines[i];
      }
    }
  }

  /** The legend, when drawn, always shows all six entries: the bound of
      750 on its rows is never reached below a heading above 700. */
  lemma LegendComplete(entries: seq<LegendEntry>, legendY: int)
    requires |entries| == 6 && legendY < TreatmentsBound
    ensures |Legend(entries, legendY)| == 13
    ensures Legend(entries, legendY)[0] == Text("Color Legend:", 30, legendY)
    ensures forall i :: 0 <= i < 6 ==>
      Legend(entries, legendY)[2 * i + 1] == Swatch(entries[i].color, if i % 2 == 0 then 30 else 150, legendY + 15 + 15 * (i / 2)) &&
      Legend(entries, legendY)[2 * i + 2] == Text(entries[i].name, if i % 2 == 0 then 45 else 165, legendY + 15 + 15 * (i / 2))
  {
    LegendRowsComplete(entries, 0, legendY + 15);
  }

  lemma {:induction false} LegendRowsComplete(entries: seq<LegendEntry>, k: nat, rowY: int)
    requires k <= |entries| <= 6 && rowY < TreatmentsBound + 15
    ensures |LegendRows(entries, k, rowY)| == 2 * (|entries| - k)
    ensures forall i :: k <= i < |entries| ==>
      LegendRows(entries, k, rowY)[2 * (i - k)] == Swatch(entries[i].color, if i % 2 == 0 then 30 else 150, rowY + 15 * (i / 2)) &&
      LegendRows(entries, k, rowY)[2 * (i - k) + 1] == Text(entries[i].name, if i % 2 == 0 then 45 else 165, rowY + 15 * (i / 2))
    decreases |entries| - k
  {
    if k < |entries| {
      LegendRowsComplete(entries, k + 1, rowY);
      assert rowY + 15 * (k / 2) < LegendRowBound;
    }
  }

  /** Every category, as a set. */
  const AllCategories: set<Category> := {Stains, InflammedGums, RecededGums, Malaligned, Attrition, Crowns}

  lemma AllCategoriesCount()
    ensures |AllCategories| == 6
  {
  }

  lemma ElementsAreCategories(cs: seq<Category>)
    ensures (set i | 0 <= i < |cs| :: cs[i]) <= AllCategories
  {
    forall i | 0 <= i < |cs|
      ensures cs[i] in AllCategories
    {
      match cs[i]
      case Stains =>
      case InflammedGums =>
      case RecededGums =>
      case Malaligned =>
      case Attrition =>
      case Crowns =>
    }
  }

  /** A category list without repetitions has at most six entries. */
  lemma DistinctCategoriesAtMostSix(cs: seq<Category>)
    requires Distinct(cs)
    ensures |cs| <= 6
  {
    DistinctElements(cs);
    ElementsAreCategories(cs);
    AllCategoriesCount();
    var used := set i | 0 <= i < |cs| :: cs[i];
    assert AllCategories == used + (AllCategories - used);
  }

  lemma {:induction false} DistinctElements(cs: seq<Category>)
    requires Distinct(cs)
    ensures |set i | 0 <= i < |cs| :: cs[i]| == |cs|
    decreases |cs|
  {
    if cs != [] {
      var init := cs[..|cs| - 1];
      assert Distinct(init);
      DistinctElements(init);
      var s := set i | 0 <= i < |init| :: init[i];
      assert (set i | 0 <= i < |cs| :: cs[i]) == s + {cs[|cs| - 1]};
      assert cs[|cs| - 1] !in s;
    }
  }

  /** The classifier gives at most one treatment per category. */
  lemma TreatmentsAtMostSix(anns: seq<Annotation>)
    ensures |Classify(anns).treatments| <= 6
  {
    TreatmentKeysExact(anns, |anns|);
    DistinctCategoriesAtMostSix(Keys(Classify(anns).treatments));
  }

  /** Below an images row in [160, 416], at most six treatments (or the
      six default recommendations) all get their line, and the counter
      ends by 586. */
  lemma TreatmentSectionFits(ts: seq<Treatment>, imageY: int)
    requires |ts| <= 6 && 160 <= imageY <= FindingsBound + 16
    ensures |ts| > 0 ==> |TreatmentSection(ts, imageY).items| == 2 * |ts|
    ensures forall i :: 0 <= i < |ts| ==>
      TreatmentSection(ts, imageY).items[2 * i] == Swatch(Hex(ts[i].category), 370, imageY + 20 + 25 * i)
    ensures |ts| == 0 ==> |TreatmentSection(ts, imageY).items| == 2 * |DefaultRecommendations|
    ensures TreatmentSection(ts, imageY).y <= imageY + 20 + 25 * 6
  {
    var lines := TreatmentLines(ts);
    LinesUnclipped(lines, imageY + 20);
    if |ts| == 0 {
      var recs := RecommendationLines(DefaultRecommendations);
      assert |recs| == 6;
      LinesUnclipped(recs, imageY + 20);
    }
  }

  /** For a classification with at most six treatments, the images row
      starts in [160, 416], every treatment (or every default
      recommendation) gets its line, and the full legend is drawn. */
  lemma LayoutFits(cl: Classification)
    requires |cl.treatments| <= 6
    ensures 160 <= LayoutOf(cl).imageY <= FindingsBound + 16
    ensures |cl.treatments| > 0 ==> |LayoutOf(cl).treatments| == 2 * |cl.treatments|
    ensures forall i :: 0 <= i < |cl.treatments| ==>
      LayoutOf(cl).treatments[2 * i] == Swatch(Hex(cl.treatments[i].category), 370, LayoutOf(cl).imageY + 20 + 25 * i)
    ensures |cl.treatments| == 0 ==> |LayoutOf(cl).treatments| == 2 * |DefaultRecommendations|
    ensures LayoutOf(cl).legendY < TreatmentsBound
    ensures |Legend(LegendItems, LayoutOf(cl).legendY)| == 13
  {
    var findings := FindingsSection(cl.findings);
    var imageY := Max(findings.y, 160);
    assert 160 <= imageY <= FindingsBound + 16 by { FindingsBounds(cl.findings); }
    var treatments := TreatmentSection(cl.treatments, imageY);
    var legendY := Max(imageY + 130, treatments.y + 10);
    assert LayoutOf(cl) == Layout(findings.items, imageY, treatments.items, legendY);
    TreatmentSectionFits(cl.treatments, imageY);
    assert legendY < TreatmentsBound;
    assert |Legend(LegendItems, legendY)| == 13 by { LegendComplete(LegendItems, legendY); }
  }

  /** Whatever annotations were saved, the report shows every treatment
      and the complete legend. */
  lemma ReportNeverClipsTreatments(json: Option<AnnotationJson>)
    ensures |ClassifyJson(json).treatments| > 0 ==>
      |LayoutOf(ClassifyJson(json)).treatments| == 2 * |ClassifyJson(json).treatments|
    ensures LayoutOf(ClassifyJson(json)).legendY < TreatmentsBound
    ensures |Legend(LegendItems, LayoutOf(ClassifyJson(json)).legendY)| == 13
  {
    if json.Some? && json.value.annotations.Some? {
      TreatmentsAtMostSix(json.value.annotations.value);
    }
    LayoutFits(ClassifyJson(json));
  }
}
