/** Serving one HTTP connection (src/net/http/HttpServer.cc): every delivery of bytes is parsed,
    and answered when a request is complete or malformed. */
module HttpServing {
  import opened Options
  import opened Text
  import opened Folding
  import opened HttpGrammar
  import opened HttpParsing
  import opened HttpPrinting

  /** The user's callback, and the order in which the response's map is traversed. */
  datatype App = App(callback: (HttpRequest, HttpResponse) -> HttpResponse,
                     order: map<string, string> -> seq<string>)
  {
    ghost predicate Valid() {
      forall h :: Traverses(order(h), h)
    }
  }

  /** What is sent, and whether Shutdown follows. */
  datatype Reply = Reply(text: string, close: bool)

  const BAD_REQUEST := Reply("HTTP/1.1 400 Bad Request\r\n\r\n", true)

  function GetHeader(r: HttpRequest, field: string): string {
    if field in r.headers then r.headers[field] else ""
  }

  predicate MustClose(r: HttpRequest) {
    var connection := GetHeader(r, "Connection");
    connection == "close" || (r.version == Some(HTTP10) && connection != "Keep-Alive")
  }

  /** What the callback makes of the empty response it is handed. */
  function Response(app: App, request: HttpRequest): HttpResponse {
    app.callback(request, EmptyResponse(MustClose(request)))
  }

  /** handleRequest. */
  function Answer(app: App, request: HttpRequest): Reply
    requires app.Valid()
  {
    var response := Response(app, request);
    Reply(Print(response, app.order(response.headers)), response.closeConnection)
  }

  /** A client that reads the header section finds the user's headers with their values and the body
      right behind, is told whether the server shuts down, and the length if it does not. */
  ghost predicate ReadsAsMeant(r: HttpResponse, o: HeaderOutcome) {
    && o.Done? && o.rest == r.body
    && (forall k <- r.headers :: k in o.headers && o.headers[k] == r.headers[k])
    && (r.closeConnection <==> "Connection" in o.headers && o.headers["Connection"] == "close")
    && (!r.closeConnection ==> "Content-Length" in o.headers && Denotes(o.headers["Content-Length"], |o.rest|))
  }

  /** The user's headers are printable and do not contradict what the printer says of the connection
      and the length, and the printer's Content-Length line fits its 32 bytes or is made up for. */
  ghost predicate Coherent(r: HttpResponse) {
    && AllPrintable(r.headers)
    && ("Connection" in r.headers ==> (r.headers["Connection"] == "close" <==> r.closeConnection))
    && (r.closeConnection || (
          && ("Content-Length" in r.headers ==> Denotes(r.headers["Content-Length"], |r.body|))
          && (|r.body| < LENGTH_LIMIT || (|r.body| >= RUN_ON_LIMIT && "Content-Length" in r.headers))))
  }

  /** An answer reads as it was meant exactly when the callback's response is coherent. */
  lemma AnswerIsFramed(app: App, request: HttpRequest)
    requires app.Valid()
    ensures var r, text := Response(app, request), Answer(app, request).text;
      && StatusLine(r) <= text
      && (ReadsAsMeant(r, ParseHeaders(map[], text[|StatusLine(r)|..])) <==> Coherent(r))
  {
    var r := Response(app, request);
    var order := app.order(r.headers);
    TextAfterStatusLine(r, order);
    SectionIsFramed(r, order);
  }

  lemma TextAfterStatusLine(r: HttpResponse, order: seq<string>)
    requires forall k <- order :: k in r.headers
    ensures StatusLine(r) <= Print(r, order)
    ensures Print(r, order)[|StatusLine(r)|..] == HeaderSection(r, order) + r.body
  {
    AfterPrefix(StatusLine(r), HeaderSection(r, order), r.body);
  }

  lemma AfterPrefix(a: string, b: string, c: string)
    ensures a <= a + b + c && (a + b + c)[|a|..] == b + c
  {
  }

  lemma SectionIsFramed(r: HttpResponse, order: seq<string>)
    requires Traverses(order, r.headers)
    ensures ReadsAsMeant(r, ParseHeaders(map[], HeaderSection(r, order) + r.body)) <==> Coherent(r)
  {
    if !AllPrintable(r.headers) {
      UnprintableIsNotFramed(r, order);
    } else if r.closeConnection || |r.body| < LENGTH_LIMIT {
      PrintableSectionReadsBack(r, order, r.body);
      OwnHeadersFrame(r);
    } else {
      OverlongLengths(|r.body|);
      OverlongSectionReads(r, order, r.body);
      if |r.body| >= RUN_ON_LIMIT {
        OverlongHeadersFrame(r);
      }
    }
  }

  lemma UnprintableIsNotFramed(r: HttpResponse, order: seq<string>)
    requires Traverses(order, r.headers) && !AllPrintable(r.headers)
    ensures !ReadsAsMeant(r, ParseHeaders(map[], HeaderSection(r, order) + r.body))
  {
    ParsedArePrintable(map[], HeaderSection(r, order) + r.body);
  }

  lemma OwnHeadersFrame(r: HttpResponse)
    requires AllPrintable(r.headers) && (r.closeConnection || |r.body| < LENGTH_LIMIT)
    ensures ReadsAsMeant(r, Done(OwnHeaders(r) + r.headers, r.body)) <==> Coherent(r)
  {
    DecimalReadsBack(|r.body|);
    assert Denotes(Decimal(|r.body|), |r.body|);
    assert "close" != "Keep-Alive" by { assert |"close"| == 5; }
    var own := OwnHeaders(r);
    assert own["Connection"] == if r.closeConnection then "close" else "Keep-Alive";
    assert !r.closeConnection ==> own["Content-Length"] == Decimal(|r.body|);
  }

  lemma OverlongHeadersFrame(r: HttpResponse)
    requires AllPrintable(r.headers) && !r.closeConnection && |r.body| >= RUN_ON_LIMIT && |Decimal(|r.body|)| > 13
    ensures ReadsAsMeant(r, Done(map["Content-Length" := OverlongValue(|r.body|)] + r.headers, r.body))
       <==> Coherent(r)
  {
    OverlongValueDiffers(|r.body|);
    assert "Connection" != "Content-Length" by { assert |"Connection"| == 10; }
  }

  /** The states in which onMessage enters ParseRequest. */
  predicate Ready(c: Context) {
    Fresh(c) && (c.state == ExpectRequestLine || c.state == ExpectHeaders)
  }

  function ReplyTo(app: App, o: Outcome): Option<Reply>
    requires app.Valid()
  {
    if !o.ok then Some(BAD_REQUEST)
    else if o.context.state == GotAll then Some(Answer(app, o.context.request))
    else None
  }

  /** Reset after an answer. */
  function NextContext(o: Outcome): Context {
    if o.context.state == GotAll then FRESH_CONTEXT else o.context
  }

  /** onMessage always leaves a context in which the parser terminates and its setters' asserts
      hold, whatever has been received. */
  lemma StaysReady(c: Context, bytes: string, t: int)
    requires Ready(c)
    ensures Ready(NextContext(Parse(c, bytes, t)))
    ensures Parse(c, bytes, t).context.state == GotAll ==> Parse(c, bytes, t).ok
  {
    ParseKeepsContext(c, bytes, t);
  }

  /** The conversation so far: the context, the unread bytes, and the replies. */
  datatype Session = Session(context: Context, unread: string, replies: seq<Reply>)

  /** Between two requests with nothing left over: as after connecting, or after an answer to a
      request without a body. */
  function Idle(replies: seq<Reply>): Session {
    Session(FRESH_CONTEXT, "", replies)
  }

  /** What one readv delivers, and when. */
  datatype Chunk = Chunk(bytes: string, time: int)

  function Deliver(app: App, s: Session, chunk: Chunk): (s': Session)
    requires app.Valid() && Ready(s.context)
    ensures Ready(s'.context)
  {
    StaysReady(s.context, s.unread + chunk.bytes, chunk.time);
    Record(app, s.replies, Parse(s.context, s.unread + chunk.bytes, chunk.time))
  }

  /** The session after a delivery with outcome o. */
  function Record(app: App, replies: seq<Reply>, o: Outcome): Session
    requires app.Valid()
  {
    var reply := ReplyTo(app, o);
    Session(NextContext(o), o.rest, if reply.Some? then replies + [reply.value] else replies)
  }

  function Step(app: App): (Session, Chunk) -> Session
    requires app.Valid()
  {
    (s: Session, chunk: Chunk) => if Ready(s.context) then Deliver(app, s, chunk) else s
  }

  function DeliverAll(app: App, s: Session, chunks: seq<Chunk>): (s': Session)
    requires app.Valid() && Ready(s.context)
    ensures Ready(s'.context)
  {
    FoldKeeps(Step(app), (t: Session) => Ready(t.context), s, chunks);
    Fold(Step(app), s, chunks)
  }

  lemma DeliverLast(app: App, s: Session, chunks: seq<Chunk>)
    requires app.Valid() && Ready(s.context) && chunks != []
    ensures var n := |chunks| - 1;
      DeliverAll(app, s, chunks) == Deliver(app, DeliverAll(app, s, chunks[..n]), chunks[n])
  {
  }

  function Input(chunks: seq<Chunk>): string {
    if chunks == [] then "" else Input(chunks[..|chunks| - 1]) + chunks[|chunks| - 1].bytes
  }

  /** What follows the replies `before`: the answer to the request, with as much of the body as had
      arrived, or the refusal; nothing while the headers are incomplete. */
  ghost predicate NextReplyIsFor(app: App, before: seq<Reply>, s: Session, o: Outcome)
    requires app.Valid()
  {
    if o.ok && o.context.state != GotAll then s == Session(o.context, o.rest, before)
    else
      && |before| < |s.replies| && before <= s.replies
      && if !o.ok then s.replies[|before|] == BAD_REQUEST
         else exists n: nat :: n <= |o.rest| && IsAnswerTo(app, s.replies[|before|], o.context.request, o.rest[..n])
  }

  ghost predicate IsAnswerTo(app: App, reply: Reply, request: HttpRequest, body: string)
    requires app.Valid()
  {
    reply == Answer(app, request.(body := body))
  }

  predicate BodyIsUnread(o: Outcome) {
    o.context.state == GotAll ==> o.context.request.body == o.rest
  }

  lemma NextRecord(app: App, before: seq<Reply>, o: Outcome)
    requires app.Valid() && BodyIsUnread(o)
    ensures NextReplyIsFor(app, before, Record(app, before, o), o)
  {
    var request := o.context.request;
    if o.ok && o.context.state == GotAll {
      assert o.rest[..|o.rest|] == o.rest;
      assert IsAnswerTo(app, Answer(app, request), request, o.rest[..|o.rest|]);
    }
  }

  lemma LaterReplies(app: App, before: seq<Reply>, s: Session, s': Session, o: Outcome, more: string, t: int)
    requires app.Valid() && NextReplyIsFor(app, before, s, o) && s.replies <= s'.replies
    requires o.ok ==> o.context.state == GotAll && BodyIsUnread(o)
    ensures NextReplyIsFor(app, before, s', Continue(o, more, t))
  {
    if o.ok {
      var request := o.context.request;
      var n: nat :| n <= |o.rest| && IsAnswerTo(app, s.replies[|before|], request, o.rest[..n]);
      assert (o.rest + more)[..n] == o.rest[..n];
      assert IsAnswerTo(app, s'.replies[|before|], request.(body := o.rest + more), (o.rest + more)[..n]);
    }
  }

  lemma DeliverKeepsNextReply(app: App, before: seq<Reply>, s: Session, o: Outcome, chunk: Chunk, t: int)
    requires app.Valid() && Ready(s.context) && NextReplyIsFor(app, before, s, o) && BodyIsUnread(o)
    requires o.ok && o.context.state != GotAll ==> o.context.state == ExpectHeaders
    ensures NextReplyIsFor(app, before, Deliver(app, s, chunk), Continue(o, chunk.bytes, t))
  {
    if o.ok && o.context.state == ExpectHeaders {
      var o' := Parse(s.context, s.unread + chunk.bytes, chunk.time);
      BodyIsTheRest(s.context, s.unread + chunk.bytes, chunk.time);
      NextRecord(app, before, o');
      assert Continue(o, chunk.bytes, t) == o';
    } else {
      OneReplyADelivery(app, s, chunk);
      LaterReplies(app, before, s, Deliver(app, s, chunk), o, chunk.bytes, t);
    }
  }

  lemma FirstChunk(app: App, before: seq<Reply>, chunk: Chunk)
    requires app.Valid() && FirstCRLF(chunk.bytes).Some?
    ensures NextReplyIsFor(app, before, Deliver(app, Idle(before), chunk), Parse(FRESH_CONTEXT, chunk.bytes, chunk.time))
  {
    assert "" + chunk.bytes == chunk.bytes;
    BodyIsTheRest(FRESH_CONTEXT, chunk.bytes, chunk.time);
    NextRecord(app, before, Parse(FRESH_CONTEXT, chunk.bytes, chunk.time));
  }

  lemma LastChunk(app: App, before: seq<Reply>, s: Session, bytes: string, chunk: Chunk, t: int)
    requires app.Valid() && Ready(s.context) && FirstCRLF(bytes).Some?
    requires NextReplyIsFor(app, before, s, Parse(FRESH_CONTEXT, bytes, t))
    ensures NextReplyIsFor(app, before, Deliver(app, s, chunk), Parse(FRESH_CONTEXT, bytes + chunk.bytes, t))
  {
    RequestInTwoPieces(FRESH_CONTEXT, bytes, chunk.bytes, t);
    BodyIsTheRest(FRESH_CONTEXT, bytes, t);
    DeliverKeepsNextReply(app, before, s, Parse(FRESH_CONTEXT, bytes, t), chunk, t);
  }

  lemma OneChunk(app: App, s: Session, chunks: seq<Chunk>)
    requires app.Valid() && Ready(s.context) && |chunks| == 1
    ensures DeliverAll(app, s, chunks) == Deliver(app, s, chunks[0]) && Input(chunks) == chunks[0].bytes
  {
    DeliverLast(app, s, chunks);
    assert chunks[..0] == [] && "" + chunks[0].bytes == chunks[0].bytes;
  }

  lemma {:induction false} InputStartsWithFirst(chunks: seq<Chunk>)
    requires chunks != [] && FirstCRLF(chunks[0].bytes).Some?
    ensures FirstCRLF(Input(chunks)).Some?
    decreases |chunks|
  {
    var n := |chunks| - 1;
    if n == 0 {
      assert Input(chunks) == "" + chunks[0].bytes == chunks[0].bytes;
    } else {
      InputStartsWithFirst(chunks[..n]);
      FirstLineStays(Input(chunks[..n]), chunks[n].bytes);
    }
  }

  /** Whatever chunks a request arrives in, as long as the first brings the request line whole,
      the next reply on an idle connection is the one the whole input deserves: the answer to the
      same method, path, query, version and headers, or the refusal, or still none. */
  lemma {:induction false} AnyChunkingGetsTheSameReply(app: App, before: seq<Reply>, chunks: seq<Chunk>)
    requires app.Valid() && chunks != [] && FirstCRLF(chunks[0].bytes).Some?
    ensures NextReplyIsFor(app, before, DeliverAll(app, Idle(before), chunks),
                           Parse(FRESH_CONTEXT, Input(chunks), chunks[0].time))
    decreases |chunks|
  {
    var n := |chunks| - 1;
    if n == 0 {
      OneChunk(app, Idle(before), chunks);
      FirstChunk(app, before, chunks[0]);
    } else {
      var front := chunks[..n];
      AnyChunkingGetsTheSameReply(app, before, front);
      InputStartsWithFirst(front);
      DeliverLast(app, Idle(before), chunks);
      LastChunk(app, before, DeliverAll(app, Idle(before), front), Input(front), chunks[n], chunks[0].time);
    }
  }

  lemma OneReplyADelivery(app: App, s: Session, chunk: Chunk)
    requires app.Valid() && Ready(s.context)
    ensures var s' := Deliver(app, s, chunk);
      s.replies <= s'.replies && |s'.replies| <= |s.replies| + 1
  {
  }

  /** A first chunk without the end of the request line is refused, whatever follows. */
  lemma {:induction false} IncompleteLineIsRefused(app: App, before: seq<Reply>, chunks: seq<Chunk>)
    requires app.Valid() && chunks != [] && FirstCRLF(chunks[0].bytes).None?
    ensures before + [BAD_REQUEST] <= DeliverAll(app, Idle(before), chunks).replies
    decreases |chunks|
  {
    var n := |chunks| - 1;
    if n == 0 {
      OneChunk(app, Idle(before), chunks);
      assert "" + chunks[0].bytes == chunks[0].bytes;
    } else {
      DeliverLast(app, Idle(before), chunks);
      IncompleteLineIsRefused(app, before, chunks[..n]);
      OneReplyADelivery(app, DeliverAll(app, Idle(before), chunks[..n]), chunks[n]);
    }
  }

  // The body that stays in the buffer.

  /** The delivery completes a request. */
  predicate Completes(s: Session, chunk: Chunk)
    requires Ready(s.context)
  {
    var o := Parse(s.context, s.unread + chunk.bytes, chunk.time);
    o.ok && o.context.state == GotAll
  }

  function BodyOf(s: Session, chunk: Chunk): string
    requires Ready(s.context) && Completes(s, chunk)
  {
    Parse(s.context, s.unread + chunk.bytes, chunk.time).context.request.body
  }

  /** An answered request leaves its own body unread. */
  lemma BodyStaysUnread(app: App, s: Session, chunk: Chunk)
    requires app.Valid() && Ready(s.context) && Completes(s, chunk)
    ensures var s' := Deliver(app, s, chunk); s' == Session(FRESH_CONTEXT, BodyOf(s, chunk), s'.replies)
  {
    BodyIsTheRest(s.context, s.unread + chunk.bytes, chunk.time);
  }

  /** So the next delivery is parsed with the body in front, as if it were the next request line. */
  lemma BodyIsReadAsNextRequest(app: App, s: Session, chunk: Chunk, next: Chunk)
    requires app.Valid() && Ready(s.context) && Completes(s, chunk)
    ensures var s' := Deliver(app, s, chunk);
      Deliver(app, s', next) == Deliver(app, Idle(s'.replies), next.(bytes := BodyOf(s, chunk) + next.bytes))
  {
    BodyStaysUnread(app, s, chunk);
    var bytes := BodyOf(s, chunk) + next.bytes;
    assert "" + bytes == bytes;
  }

  /** Nothing delivered to an idle connection is a refusal. */
  lemma NothingIsRefused(app: App, replies: seq<Reply>, t: int)
    requires app.Valid()
    ensures Deliver(app, Idle(replies), Chunk("", t)) == Idle(replies + [BAD_REQUEST])
  {
    assert "" + "" == "";
  }

  lemma AnswerIsNoRefusal(app: App, request: HttpRequest)
    requires app.Valid()
    ensures Answer(app, request) != BAD_REQUEST
  {
    var r := Response(app, request);
    assert |StatusLine(r)| >= |Snprintf("HTTP/1.1 " + Decimal(r.statusCode) + " ")| + 2 >= 13;
    assert |ConnectionLines(r)| >= 19;
    assert |BAD_REQUEST.text| == 28;
  }

  /** What is left of a parse that has had something to read. */
  lemma SomethingShows(bytes: string, t: int)
    requires bytes != ""
    ensures var o := Parse(FRESH_CONTEXT, bytes, t);
      (o.ok && o.context.state == GotAll) || o.context.state == ExpectHeaders || (!o.ok && o.rest != "")
  {
    RequestLineStep(FRESH_CONTEXT, bytes, t);
  }

  /** Left-over bytes show, at the latest when the connection is given nothing more. */
  lemma LeftOverShows(app: App, replies: seq<Reply>, body: string, t: int)
    requires app.Valid() && body != ""
    ensures Deliver(app, Session(FRESH_CONTEXT, body, replies), Chunk("", t)) != Idle(replies + [BAD_REQUEST])
  {
    assert body + "" == body;
    SomethingShows(body, t);
    RecordShows(app, replies, Parse(FRESH_CONTEXT, body, t));
  }

  lemma RecordShows(app: App, replies: seq<Reply>, o: Outcome)
    requires app.Valid()
    requires (o.ok && o.context.state == GotAll) || o.context.state == ExpectHeaders || (!o.ok && o.rest != "")
    ensures Record(app, replies, o) != Idle(replies + [BAD_REQUEST])
  {
    if o.ok && o.context.state == GotAll {
      var reply := Answer(app, o.context.request);
      AnswerIsNoRefusal(app, o.context.request);
      assert (replies + [reply])[|replies|] != (replies + [BAD_REQUEST])[|replies|];
    }
  }

  /** After an answer, whatever is delivered next is read as on an idle connection exactly when the
      answered request had no body. */
  lemma NextRequestNeedsEmptyBody(app: App, s: Session, chunk: Chunk)
    requires app.Valid() && Ready(s.context) && Completes(s, chunk)
    ensures var s' := Deliver(app, s, chunk);
      (forall next :: Deliver(app, s', next) == Deliver(app, Idle(s'.replies), next)) <==> BodyOf(s, chunk) == ""
  {
    BodyStaysUnread(app, s, chunk);
    var s' := Deliver(app, s, chunk);
    if s'.unread != "" {
      NothingIsRefused(app, s'.replies, 0);
      LeftOverShows(app, s'.replies, s'.unread, 0);
      assert Deliver(app, s', Chunk("", 0)) != Deliver(app, Idle(s'.replies), Chunk("", 0));
    }
  }

  // A whole conversation.

  /** The chunks bring exactly one good request, without a body, and the first its whole line. */
  predicate Bodyless(chunks: seq<Chunk>) {
    && chunks != [] && FirstCRLF(chunks[0].bytes).Some? && (forall chunk <- chunks :: chunk.bytes != "")
    && var o := Parse(FRESH_CONTEXT, Input(chunks), chunks[0].time); o.ok && o.context.state == GotAll && o.rest == ""
  }

  function RequestIn(chunks: seq<Chunk>): HttpRequest
    requires Bodyless(chunks)
  {
    Parse(FRESH_CONTEXT, Input(chunks), chunks[0].time).context.request
  }

  lemma NotCompleteBefore(o: Outcome, last: string, t: int)
    requires last != "" && Continue(o, last, t).ok && Continue(o, last, t).rest == ""
    ensures o.ok && o.context.state != GotAll
  {
  }

  lemma AcceptedLine(bytes: string, t: int)
    requires Parse(FRESH_CONTEXT, bytes, t).ok
    ensures var state := Parse(FRESH_CONTEXT, bytes, t).context.state; state == ExpectHeaders || state == GotAll
  {
    RequestLineStep(FRESH_CONTEXT, bytes, t);
  }

  /** A request without a body is complete only with its last, non-empty chunk. */
  lemma EndsInLastChunk(front: string, last: string, t: int)
    requires FirstCRLF(front).Some? && last != ""
    requires var o := Parse(FRESH_CONTEXT, front + last, t); o.ok && o.context.state == GotAll && o.rest == ""
    ensures var o := Parse(FRESH_CONTEXT, front, t);
      && o.ok && o.context.state == ExpectHeaders
      && Parse(o.context, o.rest + last, t) == Parse(FRESH_CONTEXT, front + last, t)
  {
    RequestInTwoPieces(FRESH_CONTEXT, front, last, t);
    NotCompleteBefore(Parse(FRESH_CONTEXT, front, t), last, t);
    AcceptedLine(front, t);
  }

  lemma RequestIsAnswered(app: App, before: seq<Reply>, chunks: seq<Chunk>)
    requires app.Valid() && Bodyless(chunks)
    ensures DeliverAll(app, Idle(before), chunks) == Idle(before + [Answer(app, RequestIn(chunks))])
  {
    var n := |chunks| - 1;
    if n == 0 {
      OneChunk(app, Idle(before), chunks);
      assert "" + chunks[0].bytes == chunks[0].bytes;
    } else {
      AnyChunkingGetsTheSameReply(app, before, chunks[..n]);
      InputStartsWithFirst(chunks[..n]);
      assert chunks[n] in chunks;
      DeliverLast(app, Idle(before), chunks);
      EndsInLastChunk(Input(chunks[..n]), chunks[n].bytes, chunks[0].time);
    }
  }

  function Joined(requests: seq<seq<Chunk>>): seq<Chunk> {
    if requests == [] then [] else Joined(requests[..|requests| - 1]) + requests[|requests| - 1]
  }

  function Answers(app: App, requests: seq<seq<Chunk>>): seq<Reply>
    requires app.Valid() && forall chunks <- requests :: Bodyless(chunks)
  {
    if requests == [] then []
    else
      var n := |requests| - 1;
      Answers(app, requests[..n]) + [Answer(app, RequestIn(requests[n]))]
  }

  /** A keep-alive conversation: requests without a body, each in chunks of its own the first of
      which brings its whole line, are answered one by one, in order. */
  lemma {:induction false} EveryRequestIsAnswered(app: App, before: seq<Reply>, requests: seq<seq<Chunk>>)
    requires app.Valid() && forall chunks <- requests :: Bodyless(chunks)
    ensures DeliverAll(app, Idle(before), Joined(requests)) == Idle(before + Answers(app, requests))
    decreases |requests|
  {
    if requests == [] {
      assert before + Answers(app, requests) == before;
    } else {
      var n := |requests| - 1;
      EveryRequestIsAnswered(app, before, requests[..n]);
      FoldConcat(Step(app), Idle(before), Joined(requests[..n]), requests[n]);
      RequestIsAnswered(app, before + Answers(app, requests[..n]), requests[n]);
    }
  }
}

/** A whole connection of the HTTP server: its context on top of its TcpConnection. */
module HttpServerProtocol {
  import opened Options
  import opened Sequences
  import opened ConnStates
  import opened HttpParsing
  import opened HttpServing
  import T = TcpConnectionProtocol

  datatype State = State(
    context: Context,
    conn: T.State,
    replies: seq<Reply>,       // handed to Send so far
    chunks: seq<Chunk>)        // delivered so far

  datatype Event =
    | Message(chunk: Chunk, r: T.WriteResult)
    | Other(e: T.Event)

  predicate Closing(replies: seq<Reply>) {
    exists r <- replies :: r.close
  }

  /** What a client gets: nothing after the first reply that closes. */
  function Sent(replies: seq<Reply>): string {
    if replies == [] then ""
    else
      var n := |replies| - 1;
      if Closing(replies[..n]) then Sent(replies[..n]) else Sent(replies[..n]) + replies[n].text
  }

  function SendReply(c: T.Config, conn: T.State, reply: Reply, r: T.WriteResult): T.State
    requires T.Takes(r, reply.text)
  {
    var sent := T.Apply(c, conn, T.Send(reply.text, true, r)).value;
    if reply.close then T.Apply(c, sent, T.Shutdown(true)).value else sent
  }

  predicate TakesReply(r: T.WriteResult, reply: Option<Reply>) {
    reply.Some? ==> T.Takes(r, reply.value.text)
  }

  /** The connection after onMessage has found the outcome o. */
  function AfterMessage(app: App, c: T.Config, conn: T.State, o: Outcome, r: T.WriteResult): T.State
    requires app.Valid() && TakesReply(r, ReplyTo(app, o))
  {
    var reply := ReplyTo(app, o);
    if reply.None? then conn.(input := o.rest) else SendReply(c, conn.(input := o.rest), reply.value, r)
  }

  /** Only bytes, writability, one closing event and read errors reach the connection by itself. */
  predicate Enabled(app: App, s: State, e: Event)
    requires app.Valid() && Ready(s.context)
  {
    match e
    case Message(chunk, r) =>
      && s.conn.reading && chunk.bytes != ""
      && TakesReply(r, ReplyTo(app, Parse(s.context, s.conn.input + chunk.bytes, chunk.time)))
    case Other(te) =>
      T.Enabled(s.conn, te) && !T.Misses(s.conn, te) &&
      (te.Writable? || te.HangUp? || te == T.Readable(None) || te == T.Readable(Some("")))
  }

  function Apply(app: App, c: T.Config, s: State, e: Event): (s': State)
    requires app.Valid() && Ready(s.context) && T.Inv(s.conn) && Enabled(app, s, e)
    ensures Ready(s'.context)
  {
    match e
    case Message(chunk, r) => (
      var o := Parse(s.context, s.conn.input + chunk.bytes, chunk.time);
      var reply := ReplyTo(app, o);
      StaysReady(s.context, s.conn.input + chunk.bytes, chunk.time);
      State(NextContext(o), AfterMessage(app, c, s.conn, o, r),
            if reply.Some? then s.replies + [reply.value] else s.replies,
            s.chunks + [chunk]))
    case Other(te) =>
      T.StepIsSafe(c, s.conn, te);
      s.(conn := T.Apply(c, s.conn, te).value)
  }

  function Start(): State {
    State(FRESH_CONTEXT, T.Init().(begun := true, reading := true, state := Connected), [], [])
  }

  ghost predicate Inv(app: App, s: State)
    requires app.Valid()
  {
    && Ready(s.context) && T.Inv(s.conn)
    && s.conn.accepted == Sent(s.replies)
    && (s.conn.state == Connected ==> !Closing(s.replies))
    && (s.conn.state == Disconnecting ==> Closing(s.replies))
    && s.conn.state != Connecting
    && Session(s.context, s.conn.input, s.replies) == DeliverAll(app, Idle([]), s.chunks)
  }

  lemma SendReplyKeepsInv(c: T.Config, conn: T.State, replies: seq<Reply>, reply: Reply, r: T.WriteResult)
    requires T.Inv(conn) && T.Takes(r, reply.text) && OpenState(conn.state)
    requires conn.accepted == Sent(replies) && (conn.state == Disconnecting <==> Closing(replies))
    ensures var conn' := SendReply(c, conn, reply, r);
      && T.Inv(conn') && OpenState(conn'.state) && conn'.input == conn.input
      && conn'.accepted == Sent(replies + [reply])
      && (conn'.state == Disconnecting <==> Closing(replies + [reply]))
  {
    var sent := T.Apply(c, conn, T.Send(reply.text, true, r)).value;
    T.StepIsSafe(c, conn, T.Send(reply.text, true, r));
    T.StepIsSafe(c, sent, T.Shutdown(true));
    assert (replies + [reply])[..|replies|] == replies;
    assert reply in replies + [reply];
    assert forall x <- replies :: x in replies + [reply];
  }

  lemma SessionStep(app: App, c: T.Config, s: State, e: Event)
    requires app.Valid() && Inv(app, s) && Enabled(app, s, e) && e.Message?
    ensures var s' := Apply(app, c, s, e);
      DeliverAll(app, Idle([]), s'.chunks) == Deliver(app, Session(s.context, s.conn.input, s.replies), e.chunk)
  {
    var s' := Apply(app, c, s, e);
    DeliverLast(app, Idle([]), s'.chunks);
    assert s'.chunks[..|s.chunks|] == s.chunks;
  }

  lemma MessageKeepsInv(app: App, c: T.Config, s: State, chunk: Chunk, r: T.WriteResult)
    requires app.Valid() && Inv(app, s) && Enabled(app, s, Message(chunk, r))
    ensures Inv(app, Apply(app, c, s, Message(chunk, r)))
  {
    SessionStep(app, c, s, Message(chunk, r));
    var o := Parse(s.context, s.conn.input + chunk.bytes, chunk.time);
    var conn, reply := s.conn.(input := o.rest), ReplyTo(app, o);
    assert T.Inv(conn);
    if reply.Some? {
      SendReplyKeepsInv(c, conn, s.replies, reply.value, r);
    }
  }

  lemma StepKeepsInv(app: App, c: T.Config, s: State, e: Event)
    requires app.Valid() && Inv(app, s) && Enabled(app, s, e)
    ensures Inv(app, Apply(app, c, s, e))
  {
    match e
    case Message(chunk, r) => MessageKeepsInv(app, c, s, chunk, r);
    case Other(te) => T.StepIsSafe(c, s.conn, te);
  }

  ghost predicate Reaches(app: App, c: T.Config, s: State, es: seq<Event>, s': State)
    requires app.Valid() && Inv(app, s)
    decreases |es|
  {
    if es == [] then s' == s
    else Enabled(app, s, es[0]) && (StepKeepsInv(app, c, s, es[0]); Reaches(app, c, Apply(app, c, s, es[0]), es[1..], s'))
  }

  lemma {:induction false} RunKeepsInv(app: App, c: T.Config, s: State, es: seq<Event>, s': State)
    requires app.Valid() && Inv(app, s) && Reaches(app, c, s, es, s')
    ensures Inv(app, s')
    decreases |es|
  {
    if es != [] {
      StepKeepsInv(app, c, s, es[0]);
      RunKeepsInv(app, c, Apply(app, c, s, es[0]), es[1..], s');
    }
  }

  lemma StartIsSound(app: App)
    requires app.Valid()
    ensures Inv(app, Start())
  {
  }

  ghost predicate Runs(app: App, c: T.Config, es: seq<Event>, s: State)
    requires app.Valid()
  {
    StartIsSound(app);
    Reaches(app, c, Start(), es, s)
  }

  /** What the client's deliveries have brought, read off the events. */
  function Messages(es: seq<Event>): seq<Chunk> {
    if es == [] then []
    else (if es[0].Message? then [es[0].chunk] else []) + Messages(es[1..])
  }

  lemma StepRecords(app: App, c: T.Config, s: State, e: Event)
    requires app.Valid() && Inv(app, s) && Enabled(app, s, e)
    ensures Apply(app, c, s, e).chunks == s.chunks + if e.Message? then [e.chunk] else []
  {
  }

  lemma {:induction false} ChunksAreTheMessages(app: App, c: T.Config, s: State, es: seq<Event>, s': State)
    requires app.Valid() && Inv(app, s) && Reaches(app, c, s, es, s')
    ensures s'.chunks == s.chunks + Messages(es)
    decreases |es|
  {
    if es == [] {
      assert s.chunks + [] == s.chunks;
    } else {
      StepKeepsInv(app, c, s, es[0]);
      StepRecords(app, c, s, es[0]);
      var s1 := Apply(app, c, s, es[0]);
      ChunksAreTheMessages(app, c, s1, es[1..], s');
      OneMoreMessage(s.chunks, s1.chunks, es);
    }
  }

  lemma OneMoreMessage(before: seq<Chunk>, after: seq<Chunk>, es: seq<Event>)
    requires es != [] && after == before + if es[0].Message? then [es[0].chunk] else []
    ensures after + Messages(es[1..]) == before + Messages(es)
  {
    Regroup(before, if es[0].Message? then [es[0].chunk] else [], Messages(es[1..]));
  }

  /** In every run of a connection, whatever the client sends and whatever the socket takes, the
      bytes on the wire followed by the output buffer are the replies the client's deliveries
      deserve, in order, up to and including the first that closes. */
  lemma WireCarriesTheReplies(app: App, c: T.Config, es: seq<Event>, s: State)
    requires app.Valid() && Runs(app, c, es, s)
    ensures s.conn.wire + s.conn.output == Sent(DeliverAll(app, Idle([]), Messages(es)).replies)
  {
    StartIsSound(app);
    RunKeepsInv(app, c, Start(), es, s);
    ChunksAreTheMessages(app, c, Start(), es, s);
    assert [] + Messages(es) == Messages(es);
  }

  /** So a client whose requests have no body and each start a delivery of their own gets their
      answers, in order, up to and including the first that closes. */
  lemma ConversationReachesTheWire(app: App, c: T.Config, es: seq<Event>, s: State, requests: seq<seq<Chunk>>)
    requires app.Valid() && Runs(app, c, es, s)
    requires (forall chunks <- requests :: Bodyless(chunks)) && Messages(es) == Joined(requests)
    ensures s.conn.wire + s.conn.output == Sent(Answers(app, requests))
  {
    WireCarriesTheReplies(app, c, es, s);
    EveryRequestIsAnswered(app, [], requests);
    assert [] + Answers(app, requests) == Answers(app, requests);
  }
}

/** onMessage and handleRequest on the objects they drive. */
module HttpServers {
  import opened Buffers
  import opened HttpContexts
  import opened HttpResponses
  import opened TcpConnections
  import BufferShapes
  import H = HttpParsing
  import HttpPrinting
  import S = HttpServing
  import P = HttpServerProtocol
  import T = TcpConnectionProtocol

  class HttpServer {
    const app: S.App

    constructor (app: S.App)
      ensures this.app == app
    {
      this.app := app;
    }

    method OnMessage(conn: TcpConnection, context: HttpContext, receiveTime: int, r: T.WriteResult)
      requires app.Valid() && conn.Valid() && S.Ready(context.Model())
      requires P.TakesReply(r, S.ReplyTo(app, H.Parse(context.Model(), conn.inputBuffer.Readable(), receiveTime)))
      modifies context, conn, conn.inputBuffer`readIndex, conn.inputBuffer`writeIndex
      modifies conn.outputBuffer, conn.outputBuffer.buffer
      ensures conn.Valid() && S.Ready(context.Model())
      ensures var o := H.Parse(old(context.Model()), old(conn.inputBuffer.Readable()), receiveTime);
        && context.Model() == S.NextContext(o)
        && P.TakesReply(r, S.ReplyTo(app, o))
        && conn.Model() == P.AfterMessage(app, conn.config, old(conn.Model()), o, r)
    {
      S.StaysReady(context.Model(), conn.inputBuffer.Readable(), receiveTime);
      var ok := ParseBuffered(conn, context, receiveTime);
      if !ok {
        SendReply(conn, S.BAD_REQUEST, r);
      }
      if context.GotAll() {
        HandleRequest(conn, context.request, r);
        context.Reset();
      }
    }

    /** Parsing consumes input and leaves the rest of the connection alone. */
    method ParseBuffered(conn: TcpConnection, context: HttpContext, receiveTime: int) returns (ok: bool)
      requires conn.Valid() && S.Ready(context.Model())
      modifies context, conn.inputBuffer`readIndex, conn.inputBuffer`writeIndex
      ensures conn.Valid()
      ensures var o := H.Parse(old(context.Model()), old(conn.inputBuffer.Readable()), receiveTime);
        && context.Model() == o.context && ok == o.ok
        && conn.Model() == old(conn.Model()).(input := o.rest)
    {
      ok := context.ParseRequest(conn.inputBuffer, receiveTime);
      assert conn.Model() == old(conn.Model()).(input := conn.inputBuffer.Readable());
    }

    method SendReply(conn: TcpConnection, reply: S.Reply, r: T.WriteResult)
      requires conn.Valid() && T.Takes(r, reply.text)
      modifies conn, conn.outputBuffer, conn.outputBuffer.buffer
      ensures conn.Valid() && conn.Model() == P.SendReply(conn.config, old(conn.Model()), reply, r)
    {
      conn.Send(reply.text, true, r);
      if reply.close {
        conn.Shutdown(true);
      }
    }

    method HandleRequest(conn: TcpConnection, request: H.HttpRequest, r: T.WriteResult)
      requires app.Valid() && conn.Valid() && T.Takes(r, S.Answer(app, request).text)
      modifies conn, conn.outputBuffer, conn.outputBuffer.buffer
      ensures conn.Valid()
      ensures conn.Model() == P.SendReply(conn.config, old(conn.Model()), S.Answer(app, request), r)
    {
      var response := new HttpResponse(S.MustClose(request));
      response.Fill(app.callback(request, response.Model()));
      var text := Printed(response);
      SendReply(conn, S.Reply(text, response.closeConnection), r);
    }

    method Printed(response: HttpResponse) returns (text: string)
      requires app.Valid()
      ensures text == HttpPrinting.Print(response.Model(), app.order(response.headers))
    {
      var buf := new Buffer(BufferShapes.INITIAL_SIZE);
      response.AppendToBuffer(buf, app.order(response.headers));
      text := buf.RetrieveAllAsString();
    }
  }
}
