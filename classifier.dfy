/** `processColorCodedAnnotations` (Backend/routes/submissions.js:36-82):
    turns the ordered annotation list into six fixed finding lists and a
    treatment object keyed in order of first appearance. */
module Classifier {
  import opened Basics
  import opened Palette
  import opened Annotations

  /** One key of the `findings` object: a category and the numbers N of its
      "Marked area N" labels, in push order. */
  datatype Entry = Entry(category: Category, areas: seq<nat>)

  /** One key of the `treatments` object. */
  datatype Treatment = Treatment(category: Category, text: string)

  /** The `{ findings, treatments }` result; both lists are in the key order
      of the JavaScript objects. */
  datatype Classification = Classification(findings: seq<Entry>, treatments: seq<Treatment>)

  /** The text pushed for the annotation at 1-based position n. */
  function AreaLabel(n: nat): (s: string)
    ensures |s| > 12 && s[..12] == "Marked area " && s[12..] == Decimal(n)
  {
    "Marked area " + Decimal(n)
  }

  /** Labels of different positions differ: "Marked area N" names one
      annotation. */
  lemma AreaLabelInjective(n: nat, m: nat)
    requires AreaLabel(n) == AreaLabel(m)
    ensures n == m
  {
    assert AreaLabel(n)[12..] == AreaLabel(m)[12..];
    DecimalInjective(n, m);
  }

  /** The findings object as first built: every category, each list empty. */
  const EmptyFindings: seq<Entry> :=
    [Entry(Stains, []), Entry(InflammedGums, []), Entry(RecededGums, []),
     Entry(Malaligned, []), Entry(Attrition, []), Entry(Crowns, [])]

  /** Findings with exactly the six keys in the fixed order. */
  ghost predicate Shaped(findings: seq<Entry>) {
    |findings| == 6 && forall i :: 0 <= i < 6 ==> findings[i].category == Categories[i]
  }

  /** The labels of category c. */
  function Areas(findings: seq<Entry>, c: Category): seq<nat>
    requires |findings| == 6
  {
    findings[Index(c)].areas
  }

  /** The keys of the treatments object, in order. */
  function Keys(ts: seq<Treatment>): (ks: seq<Category>)
    ensures |ks| == |ts| && forall i :: 0 <= i < |ts| ==> ks[i] == ts[i].category
  {
    seq(|ts|, i requires 0 <= i < |ts| => ts[i].category)
  }

  ghost predicate Distinct<T>(s: seq<T>) {
    forall i, j :: 0 <= i < j < |s| ==> s[i] != s[j]
  }

  ghost predicate StrictlyIncreasing(s: seq<nat>) {
    forall i, j :: 0 <= i < j < |s| ==> s[i] < s[j]
  }

  /** Position of key c among the treatment keys, or |ts| when absent. */
  function KeyIndex(ts: seq<Treatment>, c: Category): (i: nat)
    ensures i <= |ts|
    ensures i < |ts| ==> ts[i].category == c
    ensures forall j :: 0 <= j < i ==> ts[j].category != c
    decreases |ts|
  {
    if ts == [] || ts[0].category == c then 0
    else
      var i := KeyIndex(ts[1..], c);
      assert forall j :: 1 <= j < i + 1 ==> ts[j] == ts[1..][j - 1];
      1 + i
  }

  /** `treatments[c] = text` on a JavaScript object: an existing key keeps
      its position and gets the new value, a new key goes last. */
  function Assign(ts: seq<Treatment>, c: Category, text: string): (r: seq<Treatment>)
    ensures Keys(r) == if c in Keys(ts) then Keys(ts) else Keys(ts) + [c]
    ensures forall i :: 0 <= i < |r| && r[i].category != c ==> r[i] == ts[i]
    ensures Distinct(Keys(ts)) ==> forall i :: 0 <= i < |r| && r[i].category == c ==> r[i].text == text
  {
    var i := KeyIndex(ts, c);
    assert c in Keys(ts) <==> i < |ts| by {
      if i < |ts| {
        assert Keys(ts)[i] == c;
      }
    }
    if i < |ts| then ts[i := Treatment(c, text)] else ts + [Treatment(c, text)]
  }

  /** The effect of the annotation at 1-based position n on the result. */
  function Step(cl: Classification, n: nat, a: Annotation): Classification
    requires |cl.findings| == 6
  {
    match CategoryOfColor(a.color)
    case None => cl
    case Some(c) =>
      var i := Index(c);
      Classification(cl.findings[i := cl.findings[i].(areas := cl.findings[i].areas + [n])],
                     Assign(cl.treatments, c, TreatmentText(c)))
  }

  /** The result after the first k annotations of the list. */
  function ClassifyPrefix(anns: seq<Annotation>, k: nat): (cl: Classification)
    requires k <= |anns|
    ensures Shaped(cl.findings)
    decreases k
  {
    if k == 0 then Classification(EmptyFindings, [])
    else Step(ClassifyPrefix(anns, k - 1), k, anns[k - 1])
  }

  /** The classification of a whole annotation list. */
  function Classify(anns: seq<Annotation>): Classification {
    ClassifyPrefix(anns, |anns|)
  }

  /** The classification of a stored `annotationJson`: empty when it or its
      annotation list is missing. */
  function ClassifyJson(json: Option<AnnotationJson>): (cl: Classification)
    ensures Shaped(cl.findings)
    ensures json.None? || json.value.annotations.None? ==>
      cl.treatments == [] && forall c :: Areas(cl.findings, c) == []
  {
    if json.Some? && json.value.annotations.Some? then Classify(json.value.annotations.value)
    else Classification(EmptyFindings, [])
  }

  /** `processColorCodedAnnotations`: the forEach over the annotations,
      pushing labels into the findings lists and assigning treatment keys. */
  method ProcessColorCodedAnnotations(json: Option<AnnotationJson>) returns (r: Classification)
    ensures r == ClassifyJson(json)
  {
    var findings := EmptyFindings;
    var treatments: seq<Treatment> := [];
    if json.Some? && json.value.annotations.Some? {
      var anns := json.value.annotations.value;
      var idx := 0;
      while idx < |anns|
        invariant idx <= |anns|
        invariant Classification(findings, treatments) == ClassifyPrefix(anns, idx)
      {
        assert ClassifyPrefix(anns, idx + 1) == Step(ClassifyPrefix(anns, idx), idx + 1, anns[idx]);
        match CategoryOfColor(anns[idx].color) {
          case Some(c) =>
            var i := Index(c);
            findings := findings[i := findings[i].(areas := findings[i].areas + [idx + 1])];
            treatments := Assign(treatments, c, TreatmentText(c));
          case None =>
        }
        idx := idx + 1;
      }
    }
    r := Classification(findings, treatments);
  }

  // ---------------------------------------------------------------------
  // Properties of the classification

  /** The annotation's colour denotes category c. */
  predicate Recognised(a: Annotation, c: Category) {
    CategoryOfColor(a.color) == Some(c)
  }

  /** Step appends n to exactly the annotation's category and to nothing else. */
  lemma StepAreas(cl: Classification, n: nat, a: Annotation, c: Category)
    requires Shaped(cl.findings)
    ensures Shaped(Step(cl, n, a).findings)
    ensures Areas(Step(cl, n, a).findings, c) ==
            Areas(cl.findings, c) + (if Recognised(a, c) then [n] else [])
  {
    match CategoryOfColor(a.color)
    case None =>
    case Some(d) =>
      if d != c {
        assert Categories[Index(d)] == d && Categories[Index(c)] == c;
      }
  }

  /** The category each annotation's colour denotes, in list order. */
  function Colours(anns: seq<Annotation>): (cs: seq<Option<Category>>)
    ensures |cs| == |anns| && forall i :: 0 <= i < |anns| ==> cs[i] == CategoryOfColor(anns[i].color)
  {
    seq(|anns|, i requires 0 <= i < |anns| => CategoryOfColor(anns[i].color))
  }

  /** Reference definition: the 1-based positions among the first k
      entries that denote c. */
  ghost function Positions(cs: seq<Option<Category>>, k: nat, c: Category): seq<nat>
    requires k <= |cs|
    decreases k
  {
    if k == 0 then []
    else Positions(cs, k - 1, c) + (if cs[k - 1] == Some(c) then [k] else [])
  }

  /** The labels the classifier records for c are the reference positions. */
  lemma {:induction false} AreasArePositions(anns: seq<Annotation>, k: nat, c: Category)
    requires k <= |anns|
    ensures Areas(ClassifyPrefix(anns, k).findings, c) == Positions(Colours(anns), k, c)
    decreases k
  {
    if k > 0 {
      AreasArePositions(anns, k - 1, c);
      var prev := ClassifyPrefix(anns, k - 1);
      assert ClassifyPrefix(anns, k) == Step(prev, k, anns[k - 1]);
      StepAreas(prev, k, anns[k - 1], c);
      var cs := Colours(anns);
      assert Positions(cs, k, c) == Positions(cs, k - 1, c) + (if cs[k - 1] == Some(c) then [k] else []);
    }
  }

  /** The reference positions lie in 1..k. */
  lemma {:induction false} PositionsRange(cs: seq<Option<Category>>, k: nat, c: Category)
    requires k <= |cs|
    ensures forall n :: n in Positions(cs, k, c) ==> 1 <= n <= k
    decreases k
  {
    if k > 0 {
      PositionsRange(cs, k - 1, c);
    }
  }

  /** The reference positions increase strictly. */
  lemma {:induction false} PositionsIncreasing(cs: seq<Option<Category>>, k: nat, c: Category)
    requires k <= |cs|
    ensures StrictlyIncreasing(Positions(cs, k, c))
    decreases k
  {
    if k > 0 {
      PositionsIncreasing(cs, k - 1, c);
      PositionsRange(cs, k - 1, c);
      var before := Positions(cs, k - 1, c);
      assert forall j :: 0 <= j < |before| ==> before[j] in before;
    }
  }

  /** Position i + 1 is among the first k exactly when entry i denotes c. */
  lemma {:induction false} PositionsMembership(cs: seq<Option<Category>>, k: nat, c: Category)
    requires k <= |cs|
    ensures forall i :: 0 <= i < k ==> (i + 1 in Positions(cs, k, c) <==> cs[i] == Some(c))
    decreases k
  {
    if k > 0 {
      PositionsMembership(cs, k - 1, c);
      PositionsRange(cs, k - 1, c);
      var after := Positions(cs, k, c);
      forall i | 0 <= i < k
        ensures i + 1 in after <==> cs[i] == Some(c)
      {
        if i < k - 1 {
          assert i + 1 != k;
        }
      }
    }
  }

  /** The labels of category c after k annotations are exactly the 1-based
      positions among the first k whose colour is c's, in increasing order. */
  lemma FindingsExact(anns: seq<Annotation>, k: nat, c: Category)
    requires k <= |anns|
    ensures StrictlyIncreasing(Areas(ClassifyPrefix(anns, k).findings, c))
    ensures forall n :: n in Areas(ClassifyPrefix(anns, k).findings, c) ==> 1 <= n <= k
    ensures forall i :: 0 <= i < k ==>
              (i + 1 in Areas(ClassifyPrefix(anns, k).findings, c) <==> Recognised(anns[i], c))
  {
    AreasArePositions(anns, k, c);
    PositionsRange(Colours(anns), k, c);
    PositionsIncreasing(Colours(anns), k, c);
    PositionsMembership(Colours(anns), k, c);
  }

  /** Number of annotations among the first k with one of the six colours. */
  function CountRecognised(anns: seq<Annotation>, k: nat): nat
    requires k <= |anns|
  {
    if k == 0 then 0
    else CountRecognised(anns, k - 1) + (if CategoryOfColor(anns[k - 1].color).Some? then 1 else 0)
  }

  /** `Object.values(findings).flat().length`. */
  function TotalLabels(findings: seq<Entry>): nat {
    if findings == [] then 0 else |findings[0].areas| + TotalLabels(findings[1..])
  }

  lemma {:induction false} TotalLabelsUpdate(findings: seq<Entry>, i: nat, e: Entry)
    requires i < |findings|
    ensures TotalLabels(findings[i := e]) + |findings[i].areas| == TotalLabels(findings) + |e.areas|
    decreases findings
  {
    if i > 0 {
      TotalLabelsUpdate(findings[1..], i - 1, e);
      assert findings[i := e][1..] == findings[1..][i - 1 := e];
    }
  }

  /** A step adds one label exactly when the annotation is recognised. */
  lemma StepTotal(cl: Classification, n: nat, a: Annotation)
    requires Shaped(cl.findings)
    ensures TotalLabels(Step(cl, n, a).findings) == TotalLabels(cl.findings) + (if CategoryOfColor(a.color).Some? then 1 else 0)
  {
    match CategoryOfColor(a.color)
    case None =>
    case Some(c) =>
      var i := Index(c);
      TotalLabelsUpdate(cl.findings, i, cl.findings[i].(areas := cl.findings[i].areas + [n]));
  }

  /** The total number of labels equals the number of recognised annotations:
      each recognised annotation is labelled exactly once. */
  lemma {:induction false} TotalLabelsCount(anns: seq<Annotation>, k: nat)
    requires k <= |anns|
    ensures TotalLabels(ClassifyPrefix(anns, k).findings) == CountRecognised(anns, k)
    decreases k
  {
    if k > 0 {
      TotalLabelsCount(anns, k - 1);
      StepTotal(ClassifyPrefix(anns, k - 1), k, anns[k - 1]);
    }
  }

  /** Distinct treatment keys, each with its category's fixed text, and a
      category is a key iff it has a label. */
  ghost predicate KeysMatch(findings: seq<Entry>, ts: seq<Treatment>)
    requires |findings| == 6
  {
    && Distinct(Keys(ts))
    && (forall i :: 0 <= i < |ts| ==> ts[i].text == TreatmentText(ts[i].category))
    && (forall c :: c in Keys(ts) <==> Areas(findings, c) != [])
  }

  /** Keys are ordered by the first label of their category. */
  ghost predicate FirstAppearanceOrder(findings: seq<Entry>, ts: seq<Treatment>)
    requires |findings| == 6
  {
    forall i, j :: 0 <= i < j < |ts| ==>
      Areas(findings, ts[i].category) != [] &&
      Areas(findings, ts[j].category) != [] &&
      Areas(findings, ts[i].category)[0] < Areas(findings, ts[j].category)[0]
  }

  lemma StepKeysMatch(cl: Classification, n: nat, a: Annotation)
    requires Shaped(cl.findings) && KeysMatch(cl.findings, cl.treatments)
    ensures KeysMatch(Step(cl, n, a).findings, Step(cl, n, a).treatments)
  {
    match CategoryOfColor(a.color)
    case None =>
    case Some(c) =>
      var next := Step(cl, n, a);
      var ts := cl.treatments;
      var nts := next.treatments;
      assert nts == Assign(ts, c, TreatmentText(c));
      assert Keys(nts) == if c in Keys(ts) then Keys(ts) else Keys(ts) + [c];
      assert Distinct(Keys(nts));
      forall i | 0 <= i < |nts|
        ensures nts[i].text == TreatmentText(nts[i].category)
      {
        if nts[i].category != c {
          assert nts[i] == ts[i];
        }
      }
      forall d
        ensures d in Keys(nts) <==> Areas(next.findings, d) != []
      {
        StepAreas(cl, n, a, d);
      }
  }

  lemma StepFirstAppearance(cl: Classification, n: nat, a: Annotation)
    requires Shaped(cl.findings)
    requires forall c :: c in Keys(cl.treatments) <==> Areas(cl.findings, c) != []
    requires FirstAppearanceOrder(cl.findings, cl.treatments)
    requires AllBelow(cl.findings, n)
    ensures FirstAppearanceOrder(Step(cl, n, a).findings, Step(cl, n, a).treatments)
  {
    match CategoryOfColor(a.color)
    case None =>
    case Some(c) =>
      var next := Step(cl, n, a);
      var ts := cl.treatments;
      var nts := next.treatments;
      forall d
        ensures Areas(next.findings, d) == Areas(cl.findings, d) + (if d == c then [n] else [])
      {
        StepAreas(cl, n, a, d);
      }
      forall i | 0 <= i < |ts|
        ensures nts[i].category == ts[i].category
        ensures Areas(cl.findings, ts[i].category) != []
        ensures Areas(next.findings, nts[i].category)[0] == Areas(cl.findings, ts[i].category)[0] < n
      {
        assert Keys(nts)[i] == Keys(ts)[i];
        assert ts[i].category in Keys(ts);
        var ar := Areas(cl.findings, ts[i].category);
        assert ar[0] in ar;
      }
      assert |Keys(nts)| == |nts| && |Keys(ts)| == |ts|;
      if c !in Keys(ts) {
        assert Keys(nts)[|ts|] == c;
        assert Areas(next.findings, c) == [n];
      }
      OrderExtends(cl.findings, next.findings, ts, nts, n);
  }

  /** Keeping the first labels of the listed treatments, all below n, and
      appending at most one treatment whose only label is n keeps the
      first-appearance order. */
  lemma OrderExtends(findings: seq<Entry>, next: seq<Entry>, ts: seq<Treatment>, nts: seq<Treatment>, n: nat)
    requires |findings| == 6 && |next| == 6
    requires FirstAppearanceOrder(findings, ts)
    requires |ts| <= |nts| <= |ts| + 1
    requires forall i :: 0 <= i < |ts| ==>
      nts[i].category == ts[i].category && Areas(next, nts[i].category) != [] &&
      Areas(findings, ts[i].category) != [] &&
      Areas(next, nts[i].category)[0] == Areas(findings, ts[i].category)[0] < n
    requires |nts| == |ts| + 1 ==> Areas(next, nts[|ts|].category) == [n]
    ensures FirstAppearanceOrder(next, nts)
  {
    forall i, j | 0 <= i < j < |nts|
      ensures Areas(next, nts[i].category) != [] && Areas(next, nts[j].category) != []
      ensures Areas(next, nts[i].category)[0] < Areas(next, nts[j].category)[0]
    {
      if j < |ts| {
        assert Areas(findings, ts[i].category)[0] < Areas(findings, ts[j].category)[0];
      }
    }
  }

  /** Every label of the findings is below n. */
  ghost predicate AllBelow(findings: seq<Entry>, n: nat)
    requires |findings| == 6
  {
    forall d, x :: x in Areas(findings, d) ==> x < n
  }

  /** Before annotation k is classified, every label is below k. */
  lemma LabelsBelow(anns: seq<Annotation>, k: nat)
    requires 0 < k <= |anns|
    ensures AllBelow(ClassifyPrefix(anns, k - 1).findings, k)
  {
    var findings := ClassifyPrefix(anns, k - 1).findings;
    forall d, x | x in Areas(findings, d)
      ensures x < k
    {
      AreasArePositions(anns, k - 1, d);
      PositionsRange(Colours(anns), k - 1, d);
    }
  }

  /** The treatments after k annotations: distinct keys, each with its
      category's fixed text, and a category is a key iff it has a label. */
  lemma {:induction false} TreatmentKeysExact(anns: seq<Annotation>, k: nat)
    requires k <= |anns|
    ensures KeysMatch(ClassifyPrefix(anns, k).findings, ClassifyPrefix(anns, k).treatments)
    decreases k
  {
    if k > 0 {
      TreatmentKeysExact(anns, k - 1);
      StepKeysMatch(ClassifyPrefix(anns, k - 1), k, anns[k - 1]);
    }
  }

  /** The treatment keys after k annotations are in order of their
      category's first appearance. */
  lemma {:induction false} TreatmentOrderExact(anns: seq<Annotation>, k: nat)
    requires k <= |anns|
    ensures FirstAppearanceOrder(ClassifyPrefix(anns, k).findings, ClassifyPrefix(anns, k).treatments)
    decreases k
  {
    if k > 0 {
      var prev := ClassifyPrefix(anns, k - 1);
      TreatmentOrderExact(anns, k - 1);
      TreatmentKeysExact(anns, k - 1);
      LabelsBelow(anns, k);
      StepFirstAppearance(prev, k, anns[k - 1]);
    }
  }

  /** Classifying a prefix ignores what follows it. */
  lemma {:induction false} ClassifyPrefixExtend(anns: seq<Annotation>, more: seq<Annotation>, k: nat)
    requires k <= |anns|
    ensures ClassifyPrefix(anns + more, k) == ClassifyPrefix(anns, k)
    decreases k
  {
    if k > 0 {
      ClassifyPrefixExtend(anns, more, k - 1);
      assert (anns + more)[k - 1] == anns[k - 1];
    }
  }

  /** An annotation whose colour is not one of the six changes nothing. */
  lemma UnknownColourIgnored(anns: seq<Annotation>, a: Annotation)
    requires CategoryOfColor(a.color).None?
    ensures Classify(anns + [a]) == Classify(anns)
  {
    ClassifyPrefixExtend(anns, [a], |anns|);
  }

  /** A recognised annotation appended at the end adds exactly its label to
      its own category and leaves every other category's labels as they were. */
  lemma RecognisedAppended(anns: seq<Annotation>, a: Annotation, c: Category, d: Category)
    requires Recognised(a, c)
    ensures Areas(Classify(anns + [a]).findings, c) == Areas(Classify(anns).findings, c) + [|anns| + 1]
    ensures d != c ==> Areas(Classify(anns + [a]).findings, d) == Areas(Classify(anns).findings, d)
  {
    ClassifyPrefixExtend(anns, [a], |anns|);
    StepAreas(Classify(anns), |anns| + 1, a, c);
    StepAreas(Classify(anns), |anns| + 1, a, d);
  }
}
