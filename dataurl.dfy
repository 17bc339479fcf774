/** The embedded-image string of the annotate route
    (Backend/routes/submissions.js:224-228): the regular expression
    `/^data:(.+);base64,(.+)$/`, a narrowed form of the "data" URL syntax of
    section 3 of RFC 2397, and the file extension taken from its media type. */
module DataUrl {
  import opened Basics

  /** The characters JavaScript's `.` does not match. */
  predicate LineTerminator(c: char) {
    c == '\n' || c == '\r' || c == '\U{2028}' || c == '\U{2029}'
  }

  /** The two capture groups of a match. */
  datatype DataUrl = DataUrl(mime: string, payload: string)

  /** ";base64," starts at index k of s, with at least one character between
      the "data:" prefix and it and at least one after it. */
  predicate SplitsAt(s: string, k: int) {
    6 <= k && k + 8 < |s| && s[k..k + 8] == ";base64,"
  }

  /** No character of s is a line terminator. */
  ghost predicate SingleLine(s: string) {
    forall i :: 0 <= i < |s| ==> !LineTerminator(s[i])
  }

  lemma SingleLineConcat(a: string, b: string)
    requires SingleLine(a) && SingleLine(b)
    ensures SingleLine(a + b)
  {
    forall i | 0 <= i < |a + b|
      ensures !LineTerminator((a + b)[i])
    {
      if i >= |a| { assert (a + b)[i] == b[i - |a|]; }
    }
  }

  /** s is matched by the regular expression. */
  ghost predicate Matches(s: string) {
    && StartsWith(s, "data:")
    && SingleLine(s)
    && exists k :: SplitsAt(s, k)
  }

  /** The greatest split position not above k. */
  function LastSplit(s: string, k: int): (r: Option<nat>)
    ensures r.Some? ==> r.value <= k && SplitsAt(s, r.value)
    ensures r.Some? ==> forall j :: r.value < j <= k ==> !SplitsAt(s, j)
    ensures r.None? ==> forall j :: j <= k ==> !SplitsAt(s, j)
    decreases k
  {
    if k < 6 then None
    else if SplitsAt(s, k) then Some(k)
    else LastSplit(s, k - 1)
  }

  /** `s.match(/^data:(.+);base64,(.+)$/)`: the greedy first group takes the
      longest media type that still leaves a non-empty payload. */
  function Parse(s: string): (r: Option<DataUrl>)
    ensures r.Some? <==> Matches(s)
    ensures r.Some? ==> |r.value.mime| >= 1 && |r.value.payload| >= 1
    ensures r.Some? ==> s == "data:" + r.value.mime + ";base64," + r.value.payload
    ensures r.Some? ==> forall k :: SplitsAt(s, k) ==> k <= 5 + |r.value.mime|
  {
    if StartsWith(s, "data:") && forall i | 0 <= i < |s| :: !LineTerminator(s[i]) then
      match LastSplit(s, |s| - 9)
      case None => None
      case Some(k) =>
        assert s == s[..5] + s[5..k] + s[k..k + 8] + s[k + 8..];
        Some(DataUrl(s[5..k], s[k + 8..]))
    else None
  }

  /** Every "data:<mime>;base64,<payload>" with non-empty parts splits after
      its media type. */
  lemma SplitsAfterMime(mime: string, payload: string)
    requires |mime| >= 1 && |payload| >= 1
    ensures SplitsAt("data:" + mime + ";base64," + payload, 5 + |mime|)
  {
    var s := "data:" + mime + ";base64," + payload;
    assert s[5 + |mime|..5 + |mime| + 8] == ";base64,";
  }

  /** "data:<mime>;base64,<payload>" parses back to exactly its two parts
      when both are non-empty, neither holds a line terminator and the
      payload holds no ';' (as a base64 payload does not). */
  lemma ParseExact(mime: string, payload: string)
    requires |mime| >= 1 && |payload| >= 1
    requires SingleLine(mime)
    requires forall i :: 0 <= i < |payload| ==> payload[i] != ';' && !LineTerminator(payload[i])
    ensures Parse("data:" + mime + ";base64," + payload) == Some(DataUrl(mime, payload))
  {
    var s := "data:" + mime + ";base64," + payload;
    WellFormedMatches(mime, payload);
    var d := Parse(s).value;
    SplitsAfterMime(mime, payload);
    SplitsAfterMime(d.mime, d.payload);
    NoLaterSplit(mime, payload, 5 + |d.mime|);
    SameLengthSameParts(mime, payload, d.mime, d.payload);
  }

  /** A well-formed "data:<mime>;base64,<payload>" is matched. */
  lemma WellFormedMatches(mime: string, payload: string)
    requires |mime| >= 1 && |payload| >= 1
    requires SingleLine(mime)
    requires forall i :: 0 <= i < |payload| ==> !LineTerminator(payload[i])
    ensures Matches("data:" + mime + ";base64," + payload)
  {
    var s := "data:" + mime + ";base64," + payload;
    SplitsAfterMime(mime, payload);
    SingleLineConcat("data:", mime);
    SingleLineConcat("data:" + mime, ";base64,");
    SingleLineConcat("data:" + mime + ";base64,", payload);
    assert s[..5] == "data:";
  }

  /** Two readings of one string with media types of one length agree. */
  lemma SameLengthSameParts(m1: string, p1: string, m2: string, p2: string)
    requires "data:" + m1 + ";base64," + p1 == "data:" + m2 + ";base64," + p2
    requires |m1| == |m2|
    ensures m1 == m2 && p1 == p2
  {
    var s := "data:" + m1 + ";base64," + p1;
    var t := "data:" + m2 + ";base64," + p2;
    assert m1 == s[5..5 + |m1|] == t[5..5 + |m2|] == m2;
    assert p1 == s[5 + |m1| + 8..] == t[5 + |m2| + 8..] == p2;
  }

  /** With no ';' in the payload, no split lies past the media type. */
  lemma NoLaterSplit(mime: string, payload: string, k: int)
    requires |mime| >= 1 && |payload| >= 1
    requires forall i :: 0 <= i < |payload| ==> payload[i] != ';'
    requires SplitsAt("data:" + mime + ";base64," + payload, k)
    ensures k <= 5 + |mime|
  {
    var s := "data:" + mime + ";base64," + payload;
    var m := 5 + |mime|;
    forall j | m < j < |s|
      ensures s[j] != ';'
    {
      if j >= m + 8 {
        assert s[j] == payload[j - m - 8];
      } else {
        assert s[j] == ";base64,"[j - m];
      }
    }
    assert s[k] == s[k..k + 8][0];
  }

  /** The canvas export "data:image/png;base64,<payload>" is accepted with
      media type "image/png" for any non-empty payload of base64 characters. */
  lemma CanvasExportParses(payload: string)
    requires |payload| >= 1
    requires forall i :: 0 <= i < |payload| ==> payload[i] != ';' && !LineTerminator(payload[i])
    ensures Parse("data:image/png;base64," + payload) == Some(DataUrl("image/png", payload))
  {
    assert SingleLine("image/png");
    assert "data:image/png;base64," + payload == "data:" + "image/png" + ";base64," + payload;
    ParseExact("image/png", payload);
  }

  /** With two ";base64," markers the string is split at the last one:
      the greedy media type absorbs the first. */
  lemma GreedyMediaType(m1: string, m2: string, payload: string)
    requires |m1| >= 1 && SingleLine(m1) && SingleLine(m2)
    requires |payload| >= 1
    requires forall i :: 0 <= i < |payload| ==> payload[i] != ';' && !LineTerminator(payload[i])
    ensures Parse("data:" + m1 + ";base64," + m2 + ";base64," + payload)
         == Some(DataUrl(m1 + ";base64," + m2, payload))
  {
    assert SingleLine(";base64,");
    SingleLineConcat(m1, ";base64,");
    SingleLineConcat(m1 + ";base64,", m2);
    assert "data:" + m1 + ";base64," + m2 + ";base64," + payload
        == "data:" + (m1 + ";base64," + m2) + ";base64," + payload;
    ParseExact(m1 + ";base64," + m2, payload);
  }

  // ---------------------------------------------------------------------
  // The extension: `matches[1].split('/')[1] || 'png'`

  /** Index of the first occurrence of c in s. */
  function IndexOf(s: string, c: char): (r: Option<nat>)
    ensures r.Some? ==> r.value < |s| && s[r.value] == c && c !in s[..r.value]
    ensures r.None? ==> c !in s
  {
    if s == [] then None
    else if s[0] == c then Some(0)
    else match IndexOf(s[1..], c)
      case None => None
      case Some(i) =>
        assert s[..i + 1] == [s[0]] + s[1..][..i];
        Some(i + 1)
  }

  /** `parts.join(sep)`. */
  function Join(parts: seq<string>, sep: char): string
    requires |parts| >= 1
  {
    if |parts| == 1 then parts[0] else parts[0] + [sep] + Join(parts[1..], sep)
  }

  /** `s.split(sep)` for a one-character separator: the pieces between
      separators, so that joining them back gives s. */
  function Split(s: string, sep: char): (parts: seq<string>)
    ensures |parts| >= 1
    ensures forall i :: 0 <= i < |parts| ==> sep !in parts[i]
    ensures Join(parts, sep) == s
    decreases |s|
  {
    match IndexOf(s, sep)
    case None => [s]
    case Some(i) =>
      var rest := Split(s[i + 1..], sep);
      assert s == s[..i] + [sep] + s[i + 1..];
      [s[..i]] + rest
  }

  /** The output file extension: the second '/'-separated piece of the
      media type, or "png" when that piece is missing or empty. */
  function Extension(mime: string): (ext: string)
    ensures ext != "" && '/' !in ext
  {
    var parts := Split(mime, '/');
    if |parts| >= 2 && parts[1] != "" then parts[1] else "png"
  }

  /** Splitting stops at the first separator. */
  lemma SplitFirst(a: string, b: string, sep: char)
    requires sep !in a
    ensures Split(a + [sep] + b, sep) == [a] + Split(b, sep)
  {
    var s := a + [sep] + b;
    var i := IndexOf(s, sep);
    assert s[|a|] == sep;
    assert s[..|a|] == a;
    assert s[..|a|] == a;
    assert s[|a| + 1..] == b;
  }

  /** "type/subtype" gives "subtype". */
  lemma ExtensionIsSubtype(t: string, e: string)
    requires '/' !in t && '/' !in e && e != ""
    ensures Extension(t + "/" + e) == e
  {
    SplitFirst(t, e, '/');
    assert Split(e, '/') == [e] by { assert IndexOf(e, '/').None?; }
    assert t + "/" + e == t + ['/'] + e;
  }

  /** A PNG canvas export is stored with the extension "png". */
  lemma PngExtension()
    ensures Extension("image/png") == "png"
  {
    ExtensionIsSubtype("image", "png");
    assert "image" + "/" + "png" == "image/png";
  }

  /** "type/subtype/more" gives "subtype" too: later pieces are ignored. */
  lemma ExtensionIgnoresLaterPieces(t: string, e: string, more: string)
    requires '/' !in t && '/' !in e && e != ""
    ensures Extension(t + "/" + e + "/" + more) == e
  {
    var tail := e + ['/'] + more;
    SplitFirst(e, more, '/');
    SplitFirst(t, tail, '/');
    Regroup(t, e, more);
  }

  lemma Regroup(t: string, e: string, more: string)
    ensures t + "/" + e + "/" + more == t + ['/'] + (e + ['/'] + more)
  {
  }

  /** A media type with no '/' gives "png". */
  lemma ExtensionWithoutSlash(t: string)
    requires '/' !in t
    ensures Extension(t) == "png"
  {
    assert IndexOf(t, '/').None?;
    assert Split(t, '/') == [t];
  }

  /** A media type ending in its '/' (an empty last subtype) gives "png". */
  lemma ExtensionOfTrailingSlash(t: string)
    requires '/' !in t
    ensures Extension(t + "/") == "png"
  {
    SplitFirst(t, "", '/');
    assert t + "/" == t + ['/'] + "";
  }

  /** A media type whose subtype is empty gives "png". */
  lemma ExtensionOfEmptySubtype(t: string, more: string)
    requires '/' !in t
    ensures Extension(t + "//" + more) == "png"
  {
    SplitFirst(t, "/" + more, '/');
    SplitFirst("", more, '/');
    assert "/" + more == [] + ['/'] + more;
    assert t + "//" + more == t + ['/'] + ("/" + more);
    assert Split(t + "//" + more, '/')[1] == "";
  }
}
