/** A request as a client writes it, and what the server makes of it: every field of the parsed
    request, and whether the answer closes the connection. */
module HttpRequests {
  import opened Options
  import opened Text
  import opened HttpGrammar
  import opened HttpParsing
  import opened HttpPrinting
  import opened HttpServing
  import S = HttpServerProtocol
  import T = TcpConnectionProtocol

  function HeaderLines(headers: seq<Header>): string {
    if headers == [] then "" else HeaderLine(headers[0]) + HeaderLines(headers[1..])
  }

  /** Of two headers with one key the later counts. */
  function HeaderMap(before: map<string, string>, headers: seq<Header>): map<string, string>
    decreases |headers|
  {
    if headers == [] then before else HeaderMap(before[headers[0].key := headers[0].value], headers[1..])
  }

  /** A request line and the white space in it. */
  datatype WrittenLine = WrittenLine(parts: RequestLine, space1: string, mark: string, space2: string) {
    function Text(): string { Assemble(parts, space1, mark, space2) }

    ghost predicate Valid() {
      && WellFormed(parts, mark)
      && All(space1, 0, |space1|, IsSpace) && All(space2, 0, |space2|, IsSpace)
      && forall j :: !CRLFAt(Text(), j)
    }
  }

  function RequestText(line: WrittenLine, headers: seq<Header>, body: string): string {
    line.Text() + (CRLF + (HeaderLines(headers) + (CRLF + body)))
  }

  /** What a client means by it. */
  function Meant(line: WrittenLine, headers: seq<Header>, body: string, t: int): HttpRequest {
    HttpRequest(verb := Some(line.parts.verb), version := Some(line.parts.version),
                path := line.parts.path, query := line.parts.query,
                body := body, receiveTime := t, headers := HeaderMap(map[], headers))
  }

  lemma {:induction false} HeaderLinesReadBack(before: map<string, string>, headers: seq<Header>, rest: string)
    requires forall h <- headers :: Printable(h)
    ensures ParseHeaders(before, HeaderLines(headers) + (CRLF + rest)) == Done(HeaderMap(before, headers), rest)
    decreases |headers|
  {
    if headers == [] {
      assert "" + (CRLF + rest) == CRLF + rest;
      EndOfHeaders(before, rest);
    } else {
      var h, more := headers[0], HeaderLines(headers[1..]) + (CRLF + rest);
      assert HeaderLines(headers) + (CRLF + rest) == HeaderLine(h) + more;
      LineIsConsumed(before, h, more);
      HeaderLinesReadBack(before[h.key := h.value], headers[1..], rest);
    }
  }

  lemma LineEndsInDigit(line: WrittenLine)
    ensures var text := line.Text(); text != "" && text[|text| - 1] != '\r'
  {
    var name := VersionName(line.parts.version);
    assert line.Text()[|line.Text()| - 1] == name[|name| - 1];
  }

  /** The first CRLF behind a valid line is the client's. */
  lemma LineIsFound(line: WrittenLine, rest: string)
    requires line.Valid()
    ensures var text, bytes := line.Text(), line.Text() + (CRLF + rest);
      FirstCRLF(bytes) == Some(|text|) && bytes[..|text|] == text && bytes[|text| + 2..] == rest
  {
    var text, bytes := line.Text(), line.Text() + (CRLF + rest);
    LineEndsInDigit(line);
    forall j | 0 <= j < |text|
      ensures !CRLFAt(bytes, j)
    {
      assert !CRLFAt(text, j);
      assert bytes[j] == text[j] && (j + 1 < |text| ==> bytes[j + 1] == text[j + 1]);
    }
    assert bytes[|text|] == '\r' && bytes[|text| + 1] == '\n';
    FirstCRLFIs(bytes, |text|);
  }

  /** A request that a client writes in the grammar's terms is read as what the client meant: each
      part of the line in the field of its name, the header map, the body, and the time at which
      the line arrived. */
  lemma RequestReadsBack(line: WrittenLine, headers: seq<Header>, body: string, t: int)
    requires line.Valid() && forall h <- headers :: Printable(h)
    ensures Parse(FRESH_CONTEXT, RequestText(line, headers, body), t)
         == Outcome(Context(GotAll, Meant(line, headers, body, t)), body, true)
  {
    var rest := HeaderLines(headers) + (CRLF + body);
    LineIsFound(line, rest);
    RequestLineReadsBack(line.parts, line.space1, line.mark, line.space2);
    RequestLineStep(FRESH_CONTEXT, RequestText(line, headers, body), t);
    HeaderLinesReadBack(map[], headers, body);
  }

  /** And so it is in two deliveries, cut anywhere behind the line; the time is that of the first. */
  lemma RequestReadsBackInPieces(line: WrittenLine, headers: seq<Header>, body: string, a: string, b: string, t: int)
    requires line.Valid() && (forall h <- headers :: Printable(h))
    requires a + b == RequestText(line, headers, body) && FirstCRLF(a).Some?
    ensures Continue(Parse(FRESH_CONTEXT, a, t), b, t)
         == Outcome(Context(GotAll, Meant(line, headers, body, t)), body, true)
  {
    RequestInTwoPieces(FRESH_CONTEXT, a, b, t);
    RequestReadsBack(line, headers, body, t);
  }

  /** What is not a request is refused with a status that reads as 400, and the connection closes. */
  lemma RefusalIsBadRequest(app: App, c: Context, bytes: string, t: int)
    requires app.Valid() && c.state != GotAll && !Parse(c, bytes, t).ok
    ensures var reply := ReplyTo(app, Parse(c, bytes, t));
      && reply.Some? && reply.value.close && FirstCRLF(reply.value.text).Some?
      && var k := FirstCRLF(reply.value.text).value;
         && ReadStatus(reply.value.text[..k]) == Some((400, "Bad Request"))
         && ParseHeaders(map[], reply.value.text[k + 2..]) == Done(map[], "")
  {
    BadRequestReadsBack();
  }

  lemma BadRequestReadsBack()
    ensures var text := BAD_REQUEST.text;
      && FirstCRLF(text).Some?
      && var k := FirstCRLF(text).value;
         ReadStatus(text[..k]) == Some((400, "Bad Request")) && ParseHeaders(map[], text[k + 2..]) == Done(map[], "")
  {
    BadRequestText();
    LineAlone(StatusText(400, "Bad Request"));
    StatusIsRead(400, "Bad Request");
    EndOfHeaders(map[], "");
    assert CRLF + "" == CRLF;
  }

  lemma BadRequestText()
    ensures BAD_REQUEST.text == StatusText(400, "Bad Request") + (CRLF + CRLF)
  {
    FourHundred();
  }

  lemma LineAlone(line: string)
    requires line == StatusText(400, "Bad Request")
    ensures var text := line + (CRLF + CRLF);
      FirstCRLF(text) == Some(|line|) && text[..|line|] == line && text[|line| + 2..] == CRLF
  {
    var text := line + (CRLF + CRLF);
    FirstCRLFOfLine(line, text);
    CRLFsAreInMessage(400, "Bad Request");
    assert forall j :: !CRLFAt("Bad Request", j);
  }

  lemma FourHundred()
    ensures Decimal(400) == "400"
  {
    assert Decimal(4) == "4" && Decimal(40) == "40";
  }

  /** HTTP/1.1 closes on Connection: close, HTTP/1.0 on anything but Connection: Keep-Alive. */
  predicate AsksToClose(line: WrittenLine, headers: seq<Header>) {
    var sent := HeaderMap(map[], headers);
    if line.parts.version == HTTP11 then "Connection" in sent && sent["Connection"] == "close"
    else !("Connection" in sent && sent["Connection"] == "Keep-Alive")
  }

  /** What the callback makes of the request the client meant, and of an empty response that closes
      if the client asks for it. */
  function MadeFor(app: App, line: WrittenLine, headers: seq<Header>, body: string, t: int): HttpResponse {
    app.callback(Meant(line, headers, body, t), HttpResponse(0, "", AsksToClose(line, headers), map[], ""))
  }

  /** That response in print, closing the connection if the callback has left it so. */
  function Due(app: App, line: WrittenLine, headers: seq<Header>, body: string, t: int): Reply
    requires app.Valid()
  {
    var r := MadeFor(app, line, headers, body, t);
    Reply(Print(r, app.order(r.headers)), r.closeConnection)
  }

  lemma RequestGetsItsAnswer(app: App, line: WrittenLine, headers: seq<Header>, body: string, t: int)
    requires app.Valid() && line.Valid() && forall h <- headers :: Printable(h)
    ensures ReplyTo(app, Parse(FRESH_CONTEXT, RequestText(line, headers, body), t))
         == Some(Due(app, line, headers, body, t))
  {
    RequestReadsBack(line, headers, body, t);
    MeantIsAnswered(app, line, headers, body, t);
  }

  lemma MeantIsAnswered(app: App, line: WrittenLine, headers: seq<Header>, body: string, t: int)
    requires app.Valid()
    ensures Answer(app, Meant(line, headers, body, t)) == Due(app, line, headers, body, t)
  {
    assert "close" != "Keep-Alive" by { assert |"close"| == 5; }
    assert MustClose(Meant(line, headers, body, t)) == AsksToClose(line, headers);
  }

  /** The user's callback leaves the decision to close to the server. */
  ghost predicate LeavesClosing(app: App) {
    forall request, r :: app.callback(request, r).closeConnection == r.closeConnection
  }

  /** The answer then closes the connection exactly if the client asks for it. */
  lemma ClosesAsAsked(app: App, line: WrittenLine, headers: seq<Header>, body: string, t: int)
    requires app.Valid() && LeavesClosing(app) && line.Valid() && forall h <- headers :: Printable(h)
    ensures var reply := ReplyTo(app, Parse(FRESH_CONTEXT, RequestText(line, headers, body), t));
      reply.Some? && (reply.value.close <==> AsksToClose(line, headers))
  {
    RequestGetsItsAnswer(app, line, headers, body, t);
  }

  /** A request without a body, as it is written and in the chunks in which it arrives. */
  datatype Sending = Sending(line: WrittenLine, headers: seq<Header>, chunks: seq<Chunk>) {
    ghost predicate Valid() {
      && line.Valid() && (forall h <- headers :: Printable(h))
      && chunks != [] && (forall chunk <- chunks :: chunk.bytes != "") && FirstCRLF(chunks[0].bytes).Some?
      && Input(chunks) == RequestText(line, headers, "")
    }
  }

  lemma SendingIsRead(app: App, x: Sending)
    requires app.Valid() && x.Valid()
    ensures Bodyless(x.chunks)
    ensures Answer(app, RequestIn(x.chunks)) == Due(app, x.line, x.headers, "", x.chunks[0].time)
  {
    RequestReadsBack(x.line, x.headers, "", x.chunks[0].time);
    MeantIsAnswered(app, x.line, x.headers, "", x.chunks[0].time);
  }

  function Arrivals(xs: seq<Sending>): seq<seq<Chunk>> {
    if xs == [] then [] else Arrivals(xs[..|xs| - 1]) + [xs[|xs| - 1].chunks]
  }

  ghost function Deserved(app: App, xs: seq<Sending>): seq<Reply>
    requires app.Valid() && forall x <- xs :: x.Valid()
  {
    if xs == [] then []
    else
      var last := xs[|xs| - 1];
      assert last.Valid();
      Deserved(app, xs[..|xs| - 1]) + [Due(app, last.line, last.headers, "", last.chunks[0].time)]
  }

  lemma {:induction false} ArrivalsAreRead(app: App, xs: seq<Sending>)
    requires app.Valid() && forall x <- xs :: x.Valid()
    ensures forall chunks <- Arrivals(xs) :: Bodyless(chunks)
    ensures Answers(app, Arrivals(xs)) == Deserved(app, xs)
  {
    if xs != [] {
      var n := |xs| - 1;
      SendingIsRead(app, xs[n]);
      ArrivalsAreRead(app, xs[..n]);
      assert Arrivals(xs)[..|Arrivals(xs)| - 1] == Arrivals(xs[..n]);
    }
  }

  /** A client that writes requests without bodies, whatever the chunks as long as no two requests
      share one and the first brings the line whole, finds the answers to what it meant on the
      wire, in order, up to and including the first that closes. */
  lemma ClientsAreAnswered(app: App, c: T.Config, es: seq<S.Event>, s: S.State, xs: seq<Sending>)
    requires app.Valid() && S.Runs(app, c, es, s)
    requires (forall x <- xs :: x.Valid()) && S.Messages(es) == Joined(Arrivals(xs))
    ensures s.conn.wire + s.conn.output == S.Sent(Deserved(app, xs))
  {
    ArrivalsAreRead(app, xs);
    S.ConversationReachesTheWire(app, c, es, s, Arrivals(xs));
  }
}
