/**
  The `multipart/related` body (RFC 2387) sent when a new file is created: a metadata part
  and a content part, each introduced by a delimiter line (section 5.1.1 of RFC 2046) and
  its own `Content-Type` header, and a closing delimiter.
 */
module Multipart {
  import opened Outcomes
  import opened FileNames

  const Boundary: string := "foo_bar_baz"
  const Delimiter: string := "\r\n--" + Boundary + "\r\n"
  const CloseDelimiter: string := "\r\n--" + Boundary + "--"
  const ContentType: string := "application/json"
  /** The value of the request's own `Content-Type` header. */
  const RequestContentType: string := "multipart/related; boundary=" + Boundary

  /** The header line and blank line that open a part. */
  function PartHeader(contentType: string): string {
    "Content-Type: " + contentType + "\r\n\r\n"
  }

  /** What stands before each part: the delimiter and the part's header. */
  const Opening: string := Delimiter + PartHeader(ContentType)

  /** `p` occurs in `s` at index `j`. */
  predicate OccursAt(s: string, p: string, j: int) {
    0 <= j && j + |p| <= |s| && s[j..j + |p|] == p
  }

  /** The first occurrence of `p` in `s` at or after `from`. */
  function IndexFrom(s: string, p: string, from: nat): (r: Option<nat>)
    requires from <= |s|
    ensures r.Some? ==> from <= r.value && OccursAt(s, p, r.value)
    ensures r.Some? ==> forall j :: from <= j < r.value ==> !OccursAt(s, p, j)
    ensures r.None? ==> forall j :: from <= j ==> !OccursAt(s, p, j)
    decreases |s| - from
  {
    if from + |p| > |s| then None
    else if s[from..from + |p|] == p then Some(from)
    else IndexFrom(s, p, from + 1)
  }

  /** One part: the delimiter, the part's `Content-Type` header, then its payload. */
  function Part(contentType: string, payload: string): string {
    Delimiter + PartHeader(contentType) + payload
  }

  /**
    The body built by the save handler from the metadata JSON and the file content. The
    handler writes the metadata part's header as one literal and the content part's from
    `contentType`; both are `Content-Type: application/json`.
   */
  function Body(metadata: string, content: string): (body: string)
    ensures Opening <= body
    ensures |body| == |metadata| + |content| + 2 * |Opening| + |CloseDelimiter|
    ensures body[|body| - |CloseDelimiter|..] == CloseDelimiter
    ensures body[|Opening|..|Opening| + |metadata|] == metadata
    ensures OccursAt(body, Opening, |Opening| + |metadata|)
    ensures body[2 * |Opening| + |metadata|..|body| - |CloseDelimiter|] == content
  {
    Part(ContentType, metadata) + Part(ContentType, content) + CloseDelimiter
  }

  /** The fixed text of the opening and of the closing delimiter. */
  lemma FramingText()
    ensures Opening == "\r\n--foo_bar_baz\r\nContent-Type: application/json\r\n\r\n"
  {
    DelimiterText();
    HeaderText();
  }

  lemma DelimiterText()
    ensures Delimiter == "\r\n--foo_bar_baz\r\n"
    ensures CloseDelimiter == "\r\n--foo_bar_baz--"
  {
  }

  lemma RequestContentTypeText()
    ensures RequestContentType == "multipart/related; boundary=foo_bar_baz"
  {
  }

  lemma HeaderText()
    ensures PartHeader(ContentType) == "Content-Type: application/json\r\n\r\n"
  {
  }

  /** The body as one concatenation of the framing and the two payloads. */
  lemma BodyFraming(metadata: string, content: string)
    ensures Body(metadata, content) == Opening + metadata + Opening + content + CloseDelimiter
  {
  }

  /** Cutting a framed text at an occurrence of `open` gives back the framing and its two payloads. */
  lemma SplitFrame(open: string, close: string, body: string, i: nat)
    requires |open| + |close| <= |body|
    requires body[..|open|] == open && body[|body| - |close|..] == close
    requires OccursAt(body[|open|..|body| - |close|], open, i)
    ensures var inner := body[|open|..|body| - |close|];
      body == open + inner[..i] + open + inner[i + |open|..] + close
  {
    var inner := body[|open|..|body| - |close|];
    assert inner == inner[..i] + open + inner[i + |open|..];
    assert body == open + inner + close;
  }

  /** In a framed text whose first payload has no carriage return, `open` (which starts with one) first occurs right after that payload. */
  lemma FirstOpening(open: string, close: string, metadata: string, content: string)
    requires |open| > 0 && open[0] == '\r' && CrFree(metadata)
    ensures var body := open + metadata + open + content + close;
      && |open| + |close| <= |body|
      && body[..|open|] == open && body[|body| - |close|..] == close
      && body[|open|..|body| - |close|] == metadata + open + content
      && IndexFrom(metadata + open + content, open, 0) == Some(|metadata|)
  {
    var body := open + metadata + open + content + close;
    var inner := metadata + open + content;
    assert body == open + inner + close;
    assert body[|open|..|body| - |close|] == inner;
    assert OccursAt(inner, open, |metadata|) by {
      assert inner[|metadata|..|metadata| + |open|] == open;
    }
    var r := IndexFrom(inner, open, 0);
    assert r.Some? && r.value <= |metadata|;
  }

  /**
    Splits a body back into its metadata and content parts: the body must open with a
    delimiter and header and end with the closing delimiter, and the metadata part ends at
    the next delimiter and header.
   */
  function Parse(body: string): (r: Option<(string, string)>)
    ensures r.Some? ==> Body(r.value.0, r.value.1) == body
  {
    if |body| < |Opening| + |CloseDelimiter|
       || body[..|Opening|] != Opening
       || body[|body| - |CloseDelimiter|..] != CloseDelimiter
    then None
    else
      var inner := body[|Opening|..|body| - |CloseDelimiter|];
      match IndexFrom(inner, Opening, 0)
      case None => None
      case Some(i) =>
        SplitFrame(Opening, CloseDelimiter, body, i);
        BodyFraming(inner[..i], inner[i + |Opening|..]);
        Some((inner[..i], inner[i + |Opening|..]))
  }

  /**
    A metadata part without carriage returns (as every JSON text written by `JSON.stringify`
    is) cannot hold a delimiter, so the body splits back into exactly the two parts it was
    built from, whatever the content.
   */
  lemma ParseBody(metadata: string, content: string)
    requires CrFree(metadata)
    ensures Parse(Body(metadata, content)) == Some((metadata, content))
  {
    BodyFraming(metadata, content);
    assert Opening[0] == '\r';
    FirstOpening(Opening, CloseDelimiter, metadata, content);
    var inner := metadata + Opening + content;
    assert inner[..|metadata|] == metadata;
    assert inner[|metadata| + |Opening|..] == content;
  }

  /** What starts every delimiter line: CRLF, two hyphens and the boundary. */
  const DashBoundary: string := "\r\n--" + Boundary

  /** `JSON.stringify` of an object holds no raw CR and starts with `{`, so not with `-`. */
  predicate JsonLike(s: string) {
    CrFree(s) && (|s| == 0 || s[0] != '-')
  }

  /** A CR at `j` with a hyphen two characters later: how every delimiter line begins. */
  predicate LineStart(s: string, j: int) {
    0 <= j && j + 2 < |s| && s[j] == '\r' && s[j + 2] == '-'
  }

  lemma OccursAtLineStart(s: string, j: int)
    requires OccursAt(s, DashBoundary, j)
    ensures LineStart(s, j)
  {
    assert s[j..j + |DashBoundary|] == DashBoundary;
    assert s[j] == DashBoundary[0] && s[j + 2] == DashBoundary[2];
  }

  /** Inside the opening, no CR other than the first and the last-but-one is followed two places later by `-`. */
  lemma OpeningLineStarts()
    ensures |Opening| == 51 && Opening[0] == '\r' && Opening[49] == '\r' && Opening[50] != '\r'
    ensures forall k :: 0 < k < 49 ==> !(Opening[k] == '\r' && Opening[k + 2] == '-')
  {
    FramingText();
  }

  /** The closing delimiter holds a CR only at its start. */
  lemma CloseLineStarts()
    ensures |CloseDelimiter| == 17 && CloseDelimiter[0] == '\r'
    ensures forall k :: 0 < k < |CloseDelimiter| ==> CloseDelimiter[k] != '\r'
  {
    DelimiterText();
  }

  /**
    In `open + m + open + c + close`, where `open` and `close` begin lines only where stated
    and `m`, `c` hold no CR and do not start with `-`, a line start is only at the beginning of
    one of the three framing pieces.
   */
  lemma FramedLineStarts(open: string, close: string, m: string, c: string, j: int)
    requires |open| >= 3 && open[0] == '\r' && open[|open| - 1] != '\r'
    requires forall k :: 0 < k < |open| - 2 ==> !(open[k] == '\r' && open[k + 2] == '-')
    requires |close| >= 1 && close[0] == '\r'
    requires forall k :: 0 < k < |close| ==> close[k] != '\r'
    requires JsonLike(m) && JsonLike(c)
    requires LineStart(open + m + open + c + close, j)
    ensures j == 0 || j == |open| + |m| || j == 2 * |open| + |m| + |c|
  {
  }

  /** A prefix of both framing pieces occurs at the start of each of them. */
  lemma FramedOccurrences(open: string, close: string, m: string, c: string, p: string)
    requires p <= open && p <= close
    ensures var body := open + m + open + c + close;
      && OccursAt(body, p, 0)
      && OccursAt(body, p, |open| + |m|)
      && OccursAt(body, p, |body| - |close|)
  {
    var body := open + m + open + c + close;
    var i := |open| + |m|;
    assert body[..|p|] == open[..|p|];
    assert body[i..i + |open|] == open;
    assert body[i..i + |p|] == open[..|p|];
    var e := |body| - |close|;
    assert body[e..] == close;
    assert body[e..e + |p|] == close[..|p|];
  }

  /** Both the delimiter and the closing delimiter begin with the dash-boundary. */
  lemma DashBoundaryPrefixes()
    ensures DashBoundary <= Opening && DashBoundary <= CloseDelimiter
  {
    assert Delimiter == DashBoundary + "\r\n";
    assert CloseDelimiter == DashBoundary + "--";
  }

  /**
    With both parts JSON-like, the body holds exactly three delimiter lines: before the
    metadata, before the content, and the closing one (section 5.1.1 of RFC 2046).
   */
  lemma BoundaryLines(metadata: string, content: string, j: int)
    requires JsonLike(metadata) && JsonLike(content)
    ensures var body := Body(metadata, content);
      OccursAt(body, DashBoundary, j)
      <==> (j == 0 || j == |Opening| + |metadata| || j == |body| - |CloseDelimiter|)
  {
    BodyFraming(metadata, content);
    DashBoundaryPrefixes();
    FramedOccurrences(Opening, CloseDelimiter, metadata, content, DashBoundary);
    if OccursAt(Body(metadata, content), DashBoundary, j) {
      OccursAtLineStart(Body(metadata, content), j);
      OpeningLineStarts();
      CloseLineStarts();
      FramedLineStarts(Opening, CloseDelimiter, metadata, content, j);
    }
  }

  /**
    The body of a created file holds exactly three delimiter lines when the saved content is
    JSON-like, since its metadata part is.
   */
  lemma CreateBodyBoundaries(year: int, content: string, j: int)
    requires JsonLike(content)
    ensures var body := Body(MetadataJson(year), content);
      OccursAt(body, DashBoundary, j)
      <==> (j == 0 || j == |Opening| + |MetadataJson(year)| || j == |body| - |CloseDelimiter|)
  {
    BoundaryLines(MetadataJson(year), content, j);
  }

  /** The body of a created file: its metadata part names `year-planner-<year>.json`. */
  lemma CreateBodyParts(year: int, content: string)
    ensures Parse(Body(MetadataJson(year), content)) == Some((MetadataJson(year), content))
  {
    ParseBody(MetadataJson(year), content);
  }
}
