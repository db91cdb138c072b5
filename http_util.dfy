// HttpUtil: how an HTTP response reaches a content handler. The status
// code decides between an IOException, a RuntimeException and delivery; a
// multipart/mixed body is split into parts, each with a block of header
// lines, and every part is handled in turn, recursively; any other body is
// handed to the handler once. The HTTP client, the socket and the multipart
// byte stream are not modelled: a response arrives as its status code and
// an entity whose parts are already cut out.

module HttpUtil {
  import opened Wrappers
  import opened JavaLang
  import opened CryptUtil

  // ---------------------------------------------------------------------
  // parseHeaders

  /** String.indexOf(char): the first position of c, or -1. */
  function IndexOf(s: string, c: char): (i: int)
    ensures -1 <= i < |s|
    ensures i >= 0 ==> s[i] == c && forall j :: 0 <= j < i ==> s[j] != c
    ensures i == -1 <==> forall j :: 0 <= j < |s| ==> s[j] != c
  {
    if s == [] then -1
    else if s[0] == c then 0
    else
      var j := IndexOf(s[1..], c);
      assert forall k :: 1 <= k < |s| ==> s[k] == s[1..][k - 1];
      if j < 0 then -1 else j + 1
  }

  lemma IndexOfIn(s: string, c: char)
    ensures IndexOf(s, c) == -1 <==> c !in s
  {
    if c in s {
      var k :| 0 <= k < |s| && s[k] == c;
    }
  }

  /**
   * The pieces between the matches of "\r?\n", leftmost first: a line ends
   * at a line feed, and a carriage return right before it goes with it.
   */
  function Pieces(s: string): (r: seq<string>)
    ensures |r| >= 1
    decreases |s|
  {
    var i := IndexOf(s, '\n');
    if i < 0 then [s]
    else [if i > 0 && s[i - 1] == '\r' then s[..i - 1] else s[..i]] + Pieces(s[i + 1..])
  }

  /** The pieces with the trailing empty ones removed. */
  function DropTrailingEmpty(xs: seq<string>): (r: seq<string>)
    ensures r <= xs
    ensures r != [] ==> r[|r| - 1] != []
    ensures forall i :: |r| <= i < |xs| ==> xs[i] == []
  {
    if xs != [] && xs[|xs| - 1] == [] then DropTrailingEmpty(xs[..|xs| - 1]) else xs
  }

  /**
   * String.split("\r?\n"): without a line feed the whole string is the one
   * element (even when empty); otherwise the pieces, trailing empty ones
   * dropped.
   */
  function SplitLines(s: string): seq<string> {
    if IndexOf(s, '\n') < 0 then [s] else DropTrailingEmpty(Pieces(s))
  }

  /** A header of a HeaderGroup. */
  datatype Header = Header(name: string, value: string)

  /**
   * One header line: the name is what precedes the first ':', the value all
   * that follows it, untrimmed; a line without ':' or starting with one is
   * invalid.
   */
  function ParseHeaderLine(line: string): (r: Outcome<Header>)
    ensures r.Ok? <==> IndexOf(line, ':') >= 1
    ensures r.Throws? ==> r.ex == RuntimeException("Invalid header: " + line)
  {
    var ioc := IndexOf(line, ':');
    if ioc < 1 then Throws(RuntimeException("Invalid header: " + line))
    else Ok(Header(line[..ioc], line[ioc + 1..]))
  }

  /**
   * A line is valid when it holds a ':' past its first character; the name
   * is then the non-empty text before the first ':' and the value the rest.
   */
  lemma HeaderLineSplits(line: string)
    ensures ParseHeaderLine(line).Ok? <==> ':' in line && line[0] != ':'
    ensures ParseHeaderLine(line).Ok? ==>
      var h := ParseHeaderLine(line).value;
      h.name != [] && ':' !in h.name && line == h.name + ":" + h.value
  {
    IndexOfIn(line, ':');
    var ioc := IndexOf(line, ':');
    if ioc >= 1 {
      assert line == line[..ioc] + ":" + line[ioc + 1..];
    }
  }

  /** The headers of the lines in order, or the exception of the first invalid line. */
  function HeadersOf(lines: seq<string>): Outcome<seq<Header>>
    decreases |lines|
  {
    if lines == [] then Ok([])
    else
      match HeadersOf(lines[..|lines| - 1])
      case Throws(e) => Throws(e)
      case Ok(hs) =>
        match ParseHeaderLine(lines[|lines| - 1])
        case Throws(e) => Throws(e)
        case Ok(h) => Ok(hs + [h])
  }

  /** parseHeaders: the raw header block split into lines, each line parsed, in order. */
  method ParseHeaders(rawHeaders: string) returns (r: Outcome<seq<Header>>)
    ensures r == HeadersOf(SplitLines(rawHeaders))
  {
    var headers := SplitLines(rawHeaders);
    var headerGroup: seq<Header> := [];
    for k := 0 to |headers|
      invariant HeadersOf(headers[..k]) == Ok(headerGroup)
    {
      assert headers[..k + 1][..k] == headers[..k];
      var header := headers[k];
      var ioc := IndexOf(header, ':');
      if ioc < 1 {
        HeadersOfFirstInvalid(headers, k, |headers|);
        assert headers[..|headers|] == headers;
        return Throws(RuntimeException("Invalid header: " + header));
      }
      var name := header[..ioc];
      var value := header[ioc + 1..];
      headerGroup := headerGroup + [Header(name, value)];
    }
    assert headers[..|headers|] == headers;
    r := Ok(headerGroup);
  }

  /** Every line valid: one header per line, in order. */
  lemma {:induction false} HeadersOfValid(lines: seq<string>)
    requires forall i :: 0 <= i < |lines| ==> ParseHeaderLine(lines[i]).Ok?
    ensures HeadersOf(lines).Ok? && |HeadersOf(lines).value| == |lines|
    ensures forall i :: 0 <= i < |lines| ==> ParseHeaderLine(lines[i]) == Ok(HeadersOf(lines).value[i])
    decreases |lines|
  {
    if lines != [] {
      var init := lines[..|lines| - 1];
      assert forall i :: 0 <= i < |init| ==> init[i] == lines[i];
      HeadersOfValid(init);
    }
  }

  /** The first invalid line decides the exception, whatever follows it. */
  lemma {:induction false} HeadersOfFirstInvalid(lines: seq<string>, k: nat, m: nat)
    requires k < m <= |lines|
    requires HeadersOf(lines[..k]).Ok? && ParseHeaderLine(lines[k]).Throws?
    ensures HeadersOf(lines[..m]) == Throws(ParseHeaderLine(lines[k]).ex)
    decreases m
  {
    assert lines[..m][..m - 1] == lines[..m - 1];
    if m > k + 1 {
      HeadersOfFirstInvalid(lines, k, m - 1);
    }
  }

  /** A header rendered as a line of a header block. */
  function Line(h: Header): string {
    h.name + ":" + h.value
  }

  /** The header block of the headers: each line ended by CR LF. */
  function Render(hs: seq<Header>): string {
    if hs == [] then "" else Line(hs[0]) + "\r\n" + Render(hs[1..])
  }

  /** The lines of a header block, one per header. */
  function Lines(hs: seq<Header>): (r: seq<string>)
    ensures |r| == |hs| && forall i :: 0 <= i < |hs| ==> r[i] == Line(hs[i])
  {
    if hs == [] then [] else [Line(hs[0])] + Lines(hs[1..])
  }

  /** A header a header block can carry: a non-empty name without ':', no line feed anywhere. */
  predicate Renderable(h: Header) {
    h.name != [] && ':' !in h.name && '\n' !in h.name && '\n' !in h.value
  }

  /** The line of a header is parsed back to it. */
  lemma ParseLine(h: Header)
    requires Renderable(h)
    ensures ParseHeaderLine(Line(h)) == Ok(h)
  {
    var line := Line(h);
    assert forall j :: 0 <= j < |h.name| ==> line[j] == h.name[j];
    assert line[|h.name|] == ':' && line[..|h.name|] == h.name && line[|h.name| + 1..] == h.value;
  }

  /** The first line of a block and the rest. */
  lemma PiecesLine(line: string, rest: string)
    requires '\n' !in line
    ensures Pieces(line + "\r\n" + rest) == [line] + Pieces(rest)
  {
    var s := line + "\r\n" + rest;
    assert forall j :: 0 <= j < |line| ==> s[j] == line[j];
    assert s[|line|] == '\r' && s[|line| + 1] == '\n';
    assert IndexOf(s, '\n') == |line| + 1;
    assert s[..|line|] == line && s[|line| + 2..] == rest;
  }

  /** A rendered block is its lines and an empty piece after the last line end. */
  lemma {:induction false} PiecesRender(hs: seq<Header>)
    requires forall i :: 0 <= i < |hs| ==> Renderable(hs[i])
    ensures Pieces(Render(hs)) == Lines(hs) + [""]
    decreases |hs|
  {
    if hs != [] {
      PiecesRender(hs[1..]);
      PiecesLine(Line(hs[0]), Render(hs[1..]));
    }
  }

  /** A non-empty header block ends in a line feed. */
  lemma RenderHasLineFeed(hs: seq<Header>)
    requires hs != []
    ensures IndexOf(Render(hs), '\n') >= 0
  {
    var s := Render(hs);
    assert s[|Line(hs[0])| + 1] == '\n';
  }

  /** A block whose pieces are non-empty lines and one empty piece splits into those lines. */
  lemma SplitLinesOfPieces(s: string, lines: seq<string>)
    requires IndexOf(s, '\n') >= 0 && Pieces(s) == lines + [""]
    requires lines != [] && lines[|lines| - 1] != []
    ensures SplitLines(s) == lines
  {
    assert (lines + [""])[..|lines|] == lines;
  }

  /** A non-empty rendered block splits back into its lines. */
  lemma SplitRender(hs: seq<Header>)
    requires hs != []
    requires forall i :: 0 <= i < |hs| ==> Renderable(hs[i])
    ensures SplitLines(Render(hs)) == Lines(hs)
  {
    var lines := Lines(hs);
    PiecesRender(hs);
    RenderHasLineFeed(hs);
    assert |Line(hs[|hs| - 1])| > 0;
    SplitLinesOfPieces(Render(hs), lines);
  }

  /** The lines of renderable headers parse back to them. */
  lemma HeadersOfLines(hs: seq<Header>)
    requires forall i :: 0 <= i < |hs| ==> Renderable(hs[i])
    ensures HeadersOf(Lines(hs)) == Ok(hs)
  {
    var lines := Lines(hs);
    forall i | 0 <= i < |hs|
      ensures ParseHeaderLine(lines[i]) == Ok(hs[i])
    {
      ParseLine(hs[i]);
    }
    HeadersOfValid(lines);
    assert HeadersOf(lines).value == hs;
  }

  /**
   * parseHeaders is the inverse of rendering a non-empty list of headers
   * as CR LF terminated lines: same names, same values, same order.
   */
  lemma HeadersRoundTrip(hs: seq<Header>)
    requires hs != []
    requires forall i :: 0 <= i < |hs| ==> Renderable(hs[i])
    ensures HeadersOf(SplitLines(Render(hs))) == Ok(hs)
  {
    SplitRender(hs);
    HeadersOfLines(hs);
  }

  /** An empty header block is one empty line, which is invalid. */
  lemma EmptyBlockThrows()
    ensures HeadersOf(SplitLines("")) == Throws(RuntimeException("Invalid header: "))
  {
    assert SplitLines("") == [""];
    assert [""][..0] == [];
  }

  /** A lone line feed is no line at all, so no header and no error. */
  lemma LoneLineFeedIsEmpty()
    ensures HeadersOf(SplitLines("\n")) == Ok([])
  {
    var s := "\n";
    assert IndexOf(s, '\n') == 0 && s[1..] == "";
    assert Pieces(s) == ["", ""];
    assert ["", ""][..1] == [""] && [""][..0] == [];
    assert SplitLines(s) == [];
  }

  // ---------------------------------------------------------------------
  // httpGet's status check

  const StatusOk := 200
  const StatusRequestTimeout := 408
  const StatusInternalServerError := 500
  const StatusGatewayTimeout := 504

  /**
   * What httpGet throws before looking at the body: a timeout (408, 504) or
   * an internal server error (500) is an IOException, any other status but
   * 200 a RuntimeException.
   */
  function StatusFailure(statusCode: int): (r: Option<Exception>)
    ensures r.None? <==> statusCode == StatusOk
    ensures r.Some? && r.value.IOException? <==>
      statusCode == StatusRequestTimeout || statusCode == StatusGatewayTimeout || statusCode == StatusInternalServerError
    ensures statusCode == StatusRequestTimeout || statusCode == StatusGatewayTimeout ==>
      r == Some(IOException("Timeout " + IntToString(statusCode)))
    ensures statusCode == StatusInternalServerError ==> r == Some(IOException("Internal Server Error " + IntToString(statusCode)))
    ensures r.Some? && r.value.RuntimeException? ==> r.value == RuntimeException("Failed " + IntToString(statusCode))
  {
    if statusCode == StatusGatewayTimeout || statusCode == StatusRequestTimeout then
      Some(IOException("Timeout " + IntToString(statusCode)))
    else if statusCode == StatusInternalServerError then
      Some(IOException("Internal Server Error " + IntToString(statusCode)))
    else if statusCode != StatusOk then
      Some(RuntimeException("Failed " + IntToString(statusCode)))
    else None
  }

  // ---------------------------------------------------------------------
  // handleMultipart

  const MultipartMixed := "multipart/mixed"

  /** An HTTP entity: its MIME type, its bytes, and for multipart/mixed the parts its stream holds. */
  datatype Entity = Entity(mimeType: string, content: seq<byte>, parts: seq<Part>)

  /** One part of a multipart stream: its raw header block and its body. */
  datatype Part = Part(rawHeaders: string, body: Entity)

  /** One call of the content handler. */
  datatype Delivery = Delivery(content: seq<byte>, mimeType: string)

  /** The deliveries made and the exception that stopped them, if any. */
  datatype Handled = Handled(deliveries: seq<Delivery>, failure: Option<Exception>)

  /** String.equalsIgnoreCase on ASCII letters. */
  predicate EqualsIgnoreCase(a: string, b: string) {
    |a| == |b| && forall i :: 0 <= i < |a| ==> Upper(a[i]) == Upper(b[i])
  }

  function Upper(c: char): char {
    if 'a' <= c <= 'z' then (c as int - 32) as char else c
  }

  /** HeaderGroup.getFirstHeader: the first header of that name, ignoring case. */
  function FirstHeader(hs: seq<Header>, name: string): (r: Option<Header>)
    ensures r.None? <==> forall i :: 0 <= i < |hs| ==> !EqualsIgnoreCase(hs[i].name, name)
    ensures r.Some? ==> exists i :: 0 <= i < |hs| && hs[i] == r.value && EqualsIgnoreCase(r.value.name, name)
                                    && forall j :: 0 <= j < i ==> !EqualsIgnoreCase(hs[j].name, name)
  {
    if hs == [] then None
    else if EqualsIgnoreCase(hs[0].name, name) then Some(hs[0])
    else
      var r := FirstHeader(hs[1..], name);
      assert forall i :: 1 <= i < |hs| ==> hs[i] == hs[1..][i - 1];
      r
  }

  /** handleMultipart on an entity: a multipart/mixed body part by part, anything else delivered once. */
  function HandleEntity(e: Entity): Handled
    decreases e, 1
  {
    if e.mimeType == MultipartMixed then HandleParts(e.parts)
    else Handled([Delivery(e.content, e.mimeType)], None)
  }

  /** The parts in order, until one throws. */
  function HandleParts(ps: seq<Part>): Handled
    decreases ps, 0
  {
    if ps == [] then Handled([], None)
    else
      var done := HandleParts(ps[..|ps| - 1]);
      if done.failure.Some? then done
      else
        var last := HandlePart(ps[|ps| - 1]);
        Handled(done.deliveries + last.deliveries, last.failure)
  }

  /** One part: its header block parsed; without a Content-Type header the dereference throws. */
  function HandlePart(p: Part): Handled
    decreases p, 2
  {
    match HeadersOf(SplitLines(p.rawHeaders))
    case Throws(e) => Handled([], Some(e))
    case Ok(hs) =>
      if FirstHeader(hs, "Content-Type").None? then Handled([], Some(NullPointerException))
      else HandleEntity(p.body)
  }

  /** The handler's side: what it has been given so far. */
  class ContentHandler {
    var received: seq<Delivery>

    constructor ()
      ensures received == []
    {
      received := [];
    }

    method Handle(content: seq<byte>, mimeType: string)
      modifies this
      ensures received == old(received) + [Delivery(content, mimeType)]
    {
      received := received + [Delivery(content, mimeType)];
    }
  }

  /** handleMultipart: nothing for a null entity; otherwise HandleEntity's deliveries, in order. */
  method HandleMultipart(entity: Option<Entity>, handler: ContentHandler) returns (r: Outcome<()>)
    modifies handler
    ensures entity.None? ==> r == Ok(()) && handler.received == old(handler.received)
    ensures entity.Some? ==>
      handler.received == old(handler.received) + HandleEntity(entity.value).deliveries
      && ExceptionOf(r) == HandleEntity(entity.value).failure
  {
    if entity.None? {
      return Ok(());
    }
    r := HandleBody(entity.value, handler);
  }

  method HandleBody(e: Entity, handler: ContentHandler) returns (r: Outcome<()>)
    modifies handler
    ensures handler.received == old(handler.received) + HandleEntity(e).deliveries
    ensures ExceptionOf(r) == HandleEntity(e).failure
    decreases e, 1
  {
    if e.mimeType == MultipartMixed {
      r := ParseMultipart(e.parts, handler);
    } else {
      handler.Handle(e.content, e.mimeType);
      r := Ok(());
    }
  }

  /** One part of parseMultipart's loop: its headers, its Content-Type, then its body. */
  method HandleOnePart(p: Part, handler: ContentHandler) returns (r: Outcome<()>)
    modifies handler
    ensures handler.received == old(handler.received) + HandlePart(p).deliveries
    ensures ExceptionOf(r) == HandlePart(p).failure
    decreases p, 2
  {
    var headers := ParseHeaders(p.rawHeaders);
    if headers.Throws? {
      return Throws(headers.ex);
    }
    if FirstHeader(headers.value, "Content-Type").None? {
      return Throws(NullPointerException);
    }
    r := HandleBody(p.body, handler);
  }

  /** parseMultipart: each part's headers, then its body, in stream order. */
  method ParseMultipart(ps: seq<Part>, handler: ContentHandler) returns (r: Outcome<()>)
    modifies handler
    ensures handler.received == old(handler.received) + HandleParts(ps).deliveries
    ensures ExceptionOf(r) == HandleParts(ps).failure
    decreases ps, 0
  {
    for k := 0 to |ps|
      invariant HandleParts(ps[..k]).failure.None?
      invariant handler.received == old(handler.received) + HandleParts(ps[..k]).deliveries
    {
      ghost var before := HandleParts(ps[..k]).deliveries;
      ghost var pre := handler.received;
      var step := HandleOnePart(ps[k], handler);
      HandlePartsStep(ps, k);
      ghost var part := HandlePart(ps[k]).deliveries;
      assert handler.received == pre + part;
      assert pre == old(handler.received) + before;
      SeqAssoc(old(handler.received), before, part);
      if step.Throws? {
        HandlePartsStopped(ps, k + 1, |ps|);
        assert ps[..|ps|] == ps;
        return step;
      }
    }
    assert ps[..|ps|] == ps;
    r := Ok(());
  }

  lemma SeqAssoc<T>(a: seq<T>, b: seq<T>, c: seq<T>)
    ensures (a + b) + c == a + (b + c)
  {
  }

  /** One more part, after parts that did not throw. */
  lemma HandlePartsStep(ps: seq<Part>, k: nat)
    requires k < |ps| && HandleParts(ps[..k]).failure.None?
    ensures HandleParts(ps[..k + 1])
         == Handled(HandleParts(ps[..k]).deliveries + HandlePart(ps[k]).deliveries, HandlePart(ps[k]).failure)
  {
    assert ps[..k + 1][..k] == ps[..k];
  }

  /** Once a part throws, the parts after it change nothing. */
  lemma {:induction false} HandlePartsStopped(ps: seq<Part>, k: nat, m: nat)
    requires k <= m <= |ps| && HandleParts(ps[..k]).failure.Some?
    ensures HandleParts(ps[..m]) == HandleParts(ps[..k])
    decreases m
  {
    if m > k {
      assert ps[..m][..m - 1] == ps[..m - 1];
      HandlePartsStopped(ps, k, m - 1);
    }
  }

  /** httpGet once the response is in: the status check, then the entity. */
  method HttpGet(statusCode: int, entity: Option<Entity>, handler: ContentHandler) returns (r: Outcome<()>)
    modifies handler
    ensures StatusFailure(statusCode).Some? ==>
      r == Throws(StatusFailure(statusCode).value) && handler.received == old(handler.received)
    ensures statusCode == StatusOk && entity.Some? ==>
      handler.received == old(handler.received) + HandleEntity(entity.value).deliveries
      && ExceptionOf(r) == HandleEntity(entity.value).failure
    ensures statusCode == StatusOk && entity.None? ==> r == Ok(()) && handler.received == old(handler.received)
  {
    var failure := StatusFailure(statusCode);
    if failure.Some? {
      return Throws(failure.value);
    }
    r := HandleMultipart(entity, handler);
  }

  // ---------------------------------------------------------------------
  // What the handler receives

  /** The non-multipart entities of a body, left to right. */
  function Leaves(e: Entity): seq<Delivery>
    decreases e, 1
  {
    if e.mimeType == MultipartMixed then PartLeaves(e.parts) else [Delivery(e.content, e.mimeType)]
  }

  function PartLeaves(ps: seq<Part>): seq<Delivery>
    decreases ps, 0
  {
    if ps == [] then [] else PartLeaves(ps[..|ps| - 1]) + Leaves(ps[|ps| - 1].body)
  }

  /** Every part of a body, at any depth, has a header block with a Content-Type line. */
  predicate WellFormed(e: Entity)
    decreases e, 1
  {
    e.mimeType == MultipartMixed ==> PartsWellFormed(e.parts)
  }

  predicate PartsWellFormed(ps: seq<Part>)
    decreases ps, 0
  {
    forall i :: 0 <= i < |ps| ==>
      HeadersOf(SplitLines(ps[i].rawHeaders)).Ok?
      && FirstHeader(HeadersOf(SplitLines(ps[i].rawHeaders)).value, "Content-Type").Some?
      && WellFormed(ps[i].body)
  }

  /**
   * A well-formed body reaches the handler as its non-multipart pieces, in
   * order, each exactly once, and nothing throws.
   */
  lemma {:induction false} HandleEntityLeaves(e: Entity)
    requires WellFormed(e)
    ensures HandleEntity(e) == Handled(Leaves(e), None)
    decreases e, 1
  {
    if e.mimeType == MultipartMixed {
      HandlePartsLeaves(e.parts);
    }
  }

  lemma {:induction false} HandlePartsLeaves(ps: seq<Part>)
    requires PartsWellFormed(ps)
    ensures HandleParts(ps) == Handled(PartLeaves(ps), None)
    decreases ps, 0
  {
    if ps != [] {
      var init := ps[..|ps| - 1];
      assert PartsWellFormed(init) by {
        assert forall i :: 0 <= i < |init| ==> init[i] == ps[i];
      }
      HandlePartsLeaves(init);
      HandleEntityLeaves(ps[|ps| - 1].body);
    }
  }

  /** A part whose header block cannot be parsed stops the walk with that exception, before its body. */
  lemma BadHeadersStop(ps: seq<Part>, p: Part)
    requires HandleParts(ps).failure.None?
    requires HeadersOf(SplitLines(p.rawHeaders)).Throws?
    ensures HandleParts(ps + [p]) == Handled(HandleParts(ps).deliveries, Some(HeadersOf(SplitLines(p.rawHeaders)).ex))
  {
    assert (ps + [p])[..|ps|] == ps;
  }
}
