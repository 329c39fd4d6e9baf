/** The incremental request parser of src/net/http/HttpContext.cc as a function of the bytes in
    the input buffer. */
module HttpParsing {
  import opened Options
  import opened Text
  import opened Flattening
  import opened HttpGrammar

  /** HttpRequest; an unset method or version is None. */
  datatype HttpRequest = HttpRequest(
    verb: Option<Method>,
    version: Option<Version>,
    path: string,
    query: string,
    body: string,
    receiveTime: int,
    headers: map<string, string>)

  const EMPTY_REQUEST := HttpRequest(None, None, "", "", "", 0, map[])

  datatype ParseState = ExpectRequestLine | ExpectHeaders | ExpectBody | GotAll

  datatype Context = Context(state: ParseState, request: HttpRequest)

  const FRESH_CONTEXT := Context(ExpectRequestLine, EMPTY_REQUEST)

  /** What ParseRequest leaves behind: the context, the unread bytes, and its result. */
  datatype Outcome = Outcome(context: Context, rest: string, ok: bool)

  datatype HeaderOutcome =
    | NeedMore(headers: map<string, string>, rest: string)
    | Done(headers: map<string, string>, rest: string)
    | Malformed(headers: map<string, string>, rest: string)

  /** The header branch, run as long as it can. */
  function ParseHeaders(headers: map<string, string>, bytes: string): HeaderOutcome
    decreases |bytes|
  {
    match FirstCRLF(bytes)
    case None => NeedMore(headers, bytes)
    case Some(k) =>
      match MatchHeader(bytes[..k])
      case Some(h) => ParseHeaders(headers[h.key := h.value], bytes[k + 2..])
      case None => if k == 0 then Done(headers, bytes[2..]) else Malformed(headers, bytes)
  }

  function AfterRequestLine(request: HttpRequest, line: RequestLine, receiveTime: int): HttpRequest {
    request.(verb := Some(line.verb), path := line.path, query := line.query,
             version := Some(line.version), receiveTime := receiveTime)
  }

  /** The header branch, and the body branch that follows it at once. */
  function ParseRest(request: HttpRequest, bytes: string): Outcome {
    match ParseHeaders(request.headers, bytes)
    case NeedMore(h, rest) => Outcome(Context(ExpectHeaders, request.(headers := h)), rest, true)
    case Malformed(h, rest) => Outcome(Context(ExpectHeaders, request.(headers := h)), rest, false)
    case Done(h, rest) => Outcome(Context(GotAll, request.(headers := h, body := rest)), rest, true)
  }

  /** ParseRequest; in the state GotAll the source would never leave its loop. */
  function Parse(c: Context, bytes: string, receiveTime: int): Outcome
    requires c.state != GotAll
  {
    match c.state
    case ExpectRequestLine => (
      match FirstCRLF(bytes)
      case None => Outcome(c, bytes, false)
      case Some(k) =>
        match MatchRequestLine(bytes[..k])
        case None => Outcome(c, bytes, false)
        case Some(line) => ParseRest(AfterRequestLine(c.request, line, receiveTime), bytes[k + 2..]))
    case ExpectHeaders => ParseRest(c.request, bytes)
    case ExpectBody => Outcome(Context(GotAll, c.request.(body := bytes)), bytes, true)
  }

  lemma OneHeader(headers: map<string, string>, bytes: string)
    requires FirstCRLF(bytes).Some? && MatchHeader(bytes[..FirstCRLF(bytes).value]).Some?
    ensures var k := FirstCRLF(bytes).value; var h := MatchHeader(bytes[..k]).value;
      ParseHeaders(headers, bytes) == ParseHeaders(headers[h.key := h.value], bytes[k + 2..])
  {
  }

  lemma HeaderLineStep(request: HttpRequest, bytes: string, h: Header)
    requires FirstCRLF(bytes).Some? && MatchHeader(bytes[..FirstCRLF(bytes).value]) == Some(h)
    ensures ParseRest(request, bytes)
         == ParseRest(request.(headers := request.headers[h.key := h.value]), bytes[FirstCRLF(bytes).value + 2..])
  {
    OneHeader(request.headers, bytes);
    SameRest(request, request.headers[h.key := h.value], bytes, bytes[FirstCRLF(bytes).value + 2..]);
  }

  lemma SameRest(request: HttpRequest, headers: map<string, string>, bytes: string, rest: string)
    requires ParseHeaders(request.headers, bytes) == ParseHeaders(headers, rest)
    ensures ParseRest(request, bytes) == ParseRest(request.(headers := headers), rest)
  {
  }

  /** One turn of the header branch: what it leaves, how much input it takes, its verdict, and
      whether another turn follows. */
  datatype Step = Step(context: Context, taken: nat, ok: bool, hasMore: bool)

  function OneLine(request: HttpRequest, bytes: string): (s: Step)
    ensures s.taken <= |bytes|
  {
    var same := Context(ExpectHeaders, request);
    match FirstCRLF(bytes)
    case None => Step(same, 0, true, false)
    case Some(k) =>
      match MatchHeader(bytes[..k])
      case Some(h) => Step(same.(request := request.(headers := request.headers[h.key := h.value])), k + 2, true, true)
      case None => if k == 0 then Step(Context(ExpectBody, request), 2, true, true) else Step(same, 0, false, false)
  }

  /** The request-line branch, in the same terms; there is no line to be had from None. */
  function RequestLineTurn(c: Context, bytes: string, t: int): (s: Step)
    ensures s.taken <= |bytes|
  {
    match FirstCRLF(bytes)
    case None => Step(c, 0, false, false)
    case Some(k) =>
      match MatchRequestLine(bytes[..k])
      case None => Step(c, 0, false, false)
      case Some(line) => Step(Context(ExpectHeaders, AfterRequestLine(c.request, line, t)), k + 2, true, true)
  }

  lemma RequestBranchStep(c: Context, bytes: string, t: int)
    requires c.state == ExpectRequestLine
    ensures var s := RequestLineTurn(c, bytes, t); var rest := bytes[s.taken..];
      if s.ok
      then s.context.state == ExpectHeaders && |rest| < |bytes| && Parse(s.context, rest, t) == Parse(c, bytes, t)
      else Outcome(s.context, rest, false) == Parse(c, bytes, t)
  {
    RequestLineStep(c, bytes, t);
  }

  /** The turns of the branch add up to the whole of it. */
  lemma HeaderBranchStep(request: HttpRequest, bytes: string, t: int)
    ensures var s := OneLine(request, bytes); var rest := bytes[s.taken..];
      var goal := Parse(Context(ExpectHeaders, request), bytes, t);
      if s.hasMore
      then s.ok && |rest| < |bytes| && Parse(s.context, rest, t) == goal
      else Outcome(s.context, rest, s.ok) == goal
  {
    RestByLines(request, bytes);
  }

  lemma RestByLines(request: HttpRequest, bytes: string)
    ensures var s := OneLine(request, bytes); var rest := bytes[s.taken..];
      ParseRest(request, bytes)
      == if !s.hasMore then Outcome(s.context, rest, s.ok)
         else if s.context.state == ExpectHeaders then ParseRest(s.context.request, rest)
         else Outcome(Context(GotAll, s.context.request.(body := rest)), rest, true)
  {
    var k := FirstCRLF(bytes);
    if k.Some? {
      if MatchHeader(bytes[..k.value]).Some? {
        HeaderLineStep(request, bytes, MatchHeader(bytes[..k.value]).value);
      } else {
        LastLineStep(request, bytes);
      }
    }
  }

  lemma LastLineStep(request: HttpRequest, bytes: string)
    requires FirstCRLF(bytes).Some? && MatchHeader(bytes[..FirstCRLF(bytes).value]) == None
    ensures ParseRest(request, bytes)
         == if FirstCRLF(bytes) == Some(0)
            then Outcome(Context(GotAll, request.(body := bytes[2..])), bytes[2..], true)
            else Outcome(Context(ExpectHeaders, request), bytes, false)
  {
  }

  lemma RequestLineStep(c: Context, bytes: string, t: int)
    requires c.state == ExpectRequestLine
    ensures var k := FirstCRLF(bytes);
      Parse(c, bytes, t)
      == if k.Some? && MatchRequestLine(bytes[..k.value]).Some?
         then Parse(Context(ExpectHeaders, AfterRequestLine(c.request, MatchRequestLine(bytes[..k.value]).value, t)),
                    bytes[k.value + 2..], t)
         else Outcome(c, bytes, false)
  {
  }

  /** The asserts of SetMethod and SetVersion: both are unset while a request line is awaited. */
  predicate Fresh(c: Context) {
    c.state == ExpectRequestLine ==> c.request.verb == None && c.request.version == None
  }

  // Chunking.

  /** More bytes arrive after the header branch has stopped. */
  function Resume(o: HeaderOutcome, more: string): HeaderOutcome {
    match o
    case NeedMore(h, rest) => ParseHeaders(h, rest + more)
    case Done(h, rest) => Done(h, rest + more)
    case Malformed(h, rest) => Malformed(h, rest + more)
  }

  lemma FirstLineStays(a: string, b: string)
    requires FirstCRLF(a).Some?
    ensures var k := FirstCRLF(a).value;
      FirstCRLF(a + b) == Some(k) && (a + b)[..k] == a[..k] && (a + b)[k + 2..] == a[k + 2..] + b
  {
    var k := FirstCRLF(a).value;
    assert forall j :: 0 <= j <= k ==> (CRLFAt(a + b, j) <==> CRLFAt(a, j));
    FirstCRLFIs(a + b, k);
  }

  /** Parsing a header section in two pieces, wherever it is cut, is parsing it whole. */
  lemma {:induction false} HeadersInTwoPieces(headers: map<string, string>, a: string, b: string)
    ensures ParseHeaders(headers, a + b) == Resume(ParseHeaders(headers, a), b)
    decreases |a|
  {
    match FirstCRLF(a)
    case None =>
    case Some(k) =>
      FirstLineStays(a, b);
      match MatchHeader(a[..k])
      case Some(h) => HeadersInTwoPieces(headers[h.key := h.value], a[k + 2..], b);
      case None =>
  }

  /** The header branch fed one chunk after the other. */
  function Feed(headers: map<string, string>, chunks: seq<string>): HeaderOutcome {
    if chunks == [] then NeedMore(headers, "")
    else Resume(Feed(headers, chunks[..|chunks| - 1]), chunks[|chunks| - 1])
  }

  /** Any chunking of the header section gives the same header map, verdict and unread bytes. */
  lemma {:induction false} AnyChunkingIsTheSame(headers: map<string, string>, chunks: seq<string>)
    ensures Feed(headers, chunks) == ParseHeaders(headers, Flatten(chunks))
  {
    if chunks != [] {
      var front := chunks[..|chunks| - 1];
      AnyChunkingIsTheSame(headers, front);
      HeadersInTwoPieces(headers, Flatten(front), chunks[|chunks| - 1]);
    }
  }

  /** What more bytes make of an outcome, for a context that is not reset in between. */
  function Continue(o: Outcome, more: string, receiveTime: int): Outcome {
    if !o.ok then o.(rest := o.rest + more)
    else if o.context.state == GotAll then
      Outcome(o.context.(request := o.context.request.(body := o.rest + more)), o.rest + more, true)
    else Parse(o.context, o.rest + more, receiveTime)
  }

  lemma RestInTwoPieces(request: HttpRequest, a: string, b: string, receiveTime: int)
    ensures ParseRest(request, a + b) == Continue(ParseRest(request, a), b, receiveTime)
  {
    HeadersInTwoPieces(request.headers, a, b);
  }

  lemma LineInTwoPieces(c: Context, a: string, b: string, t: int)
    requires c.state == ExpectRequestLine && FirstCRLF(a).Some?
    ensures Parse(c, a + b, t) == Continue(Parse(c, a, t), b, t)
  {
    FirstLineStays(a, b);
    var k := FirstCRLF(a).value;
    var line := MatchRequestLine(a[..k]);
    if line.Some? {
      var request := AfterRequestLine(c.request, line.value, t);
      assert Parse(c, a, t) == ParseRest(request, a[k + 2..]);
      assert Parse(c, a + b, t) == ParseRest(request, a[k + 2..] + b);
      RestInTwoPieces(request, a[k + 2..], b, t);
    } else {
      assert Parse(c, a, t) == Outcome(c, a, false);
    }
  }

  /** A whole request delivered in two pieces gives the same fields, header map and verdict as
      delivered at once, provided the first piece brings the request line whole. */
  lemma RequestInTwoPieces(c: Context, a: string, b: string, t: int)
    requires c.state == ExpectHeaders || (c.state == ExpectRequestLine && FirstCRLF(a).Some?)
    ensures Parse(c, a + b, t) == Continue(Parse(c, a, t), b, t)
  {
    if c.state == ExpectHeaders {
      RestInTwoPieces(c.request, a, b, t);
    } else {
      LineInTwoPieces(c, a, b, t);
    }
  }

  /** At completion the body is what is left unread. */
  lemma BodyIsTheRest(c: Context, bytes: string, t: int)
    requires c.state == ExpectRequestLine || c.state == ExpectHeaders
    ensures var o := Parse(c, bytes, t); o.context.state == GotAll ==> o.context.request.body == o.rest
  {
    if c.state == ExpectRequestLine {
      RequestLineStep(c, bytes, t);
    }
  }

  /** What is set from the request line. */
  predicate SameLine(a: HttpRequest, b: HttpRequest) {
    a.verb == b.verb && a.version == b.version && a.path == b.path && a.query == b.query
    && a.receiveTime == b.receiveTime
  }

  /** Nothing that is delivered behind the request line changes what is set from it. */
  lemma LaterBytesKeepTheLine(c: Context, bytes: string, t: int)
    requires c.state == ExpectHeaders || c.state == ExpectBody
    ensures SameLine(Parse(c, bytes, t).context.request, c.request)
  {
  }

  /** Exactly when it does: if the whole request is good, its first piece is accepted if and only
      if it contains the end of the request line. An incomplete request line is an error. */
  lemma FirstPieceNeedsTheRequestLine(c: Context, a: string, b: string, t: int)
    requires c.state == ExpectRequestLine && Parse(c, a + b, t).ok
    ensures Parse(c, a, t).ok <==> FirstCRLF(a).Some?
    ensures FirstCRLF(a).None? ==> Parse(c, a, t) == Outcome(c, a, false)
  {
    if FirstCRLF(a).Some? {
      RequestInTwoPieces(c, a, b, t);
    }
  }

  /** No outcome keeps a context in which the parser would not stop, other than the completed one
      that onMessage resets, and every outcome keeps its setters' asserts. */
  lemma ParseKeepsContext(c: Context, bytes: string, t: int)
    requires c.state != GotAll && Fresh(c)
    ensures var o := Parse(c, bytes, t);
      Fresh(o.context) && o.context.state != ExpectBody && (o.context.state == GotAll ==> o.ok)
      && |o.rest| <= |bytes|
  {
    match c.state
    case ExpectRequestLine =>
      if FirstCRLF(bytes).Some? && MatchRequestLine(bytes[..FirstCRLF(bytes).value]).Some? {
        HeadersShrink(c.request.headers, bytes[FirstCRLF(bytes).value + 2..]);
      }
    case ExpectHeaders => HeadersShrink(c.request.headers, bytes);
    case ExpectBody =>
  }

  lemma {:induction false} HeadersShrink(headers: map<string, string>, bytes: string)
    ensures |ParseHeaders(headers, bytes).rest| <= |bytes|
    decreases |bytes|
  {
    var k := FirstCRLF(bytes);
    if k.Some? {
      var h := MatchHeader(bytes[..k.value]);
      if h.Some? {
        HeadersShrink(headers[h.value.key := h.value.value], bytes[k.value + 2..]);
      }
    }
  }
}

/** The context object, parsing in place from the connection's input buffer. */
module HttpContexts {
  import opened Options
  import opened Text
  import opened Buffers
  import opened HttpGrammar
  import P = HttpParsing

  class HttpContext {
    var state: P.ParseState
    var request: P.HttpRequest

    ghost function Model(): P.Context
      reads this
    {
      P.Context(state, request)
    }

    constructor ()
      ensures Model() == P.FRESH_CONTEXT
    {
      state, request := P.ExpectRequestLine, P.EMPTY_REQUEST;
    }

    predicate GotAll()
      reads this
    {
      state == P.GotAll
    }

    method Reset()
      modifies this
      ensures Model() == P.FRESH_CONTEXT
    {
      state, request := P.ExpectRequestLine, P.EMPTY_REQUEST;
    }

    /** Terminates in every state but GotAll, in which the source would loop for ever. */
    method ParseRequest(buf: Buffer, receiveTime: int) returns (ok: bool)
      requires buf.Valid() && state != P.GotAll && P.Fresh(Model())
      modifies this, buf`readIndex, buf`writeIndex
      ensures buf.Valid()
      ensures P.Outcome(Model(), buf.Readable(), ok) == P.Parse(old(Model()), old(buf.Readable()), receiveTime)
    {
      ok := true;
      var hasMore := true;
      ghost var goal := P.Parse(Model(), buf.Readable(), receiveTime);
      while hasMore
        invariant buf.Valid() && buf.buffer == old(buf.buffer) && P.Fresh(Model())
        invariant hasMore ==> ok && state != P.GotAll && P.Parse(Model(), buf.Readable(), receiveTime) == goal
        invariant !hasMore ==> P.Outcome(Model(), buf.Readable(), ok) == goal
        decreases hasMore, |buf.Readable()|, if state == P.ExpectBody then 0 else 1
      {
        match state
        case ExpectRequestLine =>
          ok := TakeRequestLine(buf, receiveTime);
          hasMore := ok;
        case ExpectHeaders =>
          ok, hasMore := TakeHeaderLine(buf, receiveTime);
        case ExpectBody =>
          var body := buf.Peek(buf.ReadableBytes());
          request := request.(body := body);
          state := P.GotAll;
          hasMore := false;
      }
    }

    /** The request-line branch; it has parsed the line if and only if it returns true. */
    method TakeRequestLine(buf: Buffer, receiveTime: int) returns (parsed: bool)
      requires buf.Valid() && state == P.ExpectRequestLine && P.Fresh(Model())
      modifies this, buf`readIndex, buf`writeIndex
      ensures buf.Valid() && P.Fresh(Model())
      ensures var goal := P.Parse(old(Model()), old(buf.Readable()), receiveTime);
        if parsed
        then state == P.ExpectHeaders && |buf.Readable()| < |old(buf.Readable())|
             && P.Parse(Model(), buf.Readable(), receiveTime) == goal
        else P.Outcome(Model(), buf.Readable(), false) == goal
    {
      P.RequestBranchStep(Model(), buf.Readable(), receiveTime);
      parsed := ReadRequestLine(buf, receiveTime);
    }

    method ReadRequestLine(buf: Buffer, receiveTime: int) returns (parsed: bool)
      requires buf.Valid() && request.verb == None && request.version == None
      modifies this, buf`readIndex, buf`writeIndex
      ensures buf.Valid()
      ensures var bytes := old(buf.Readable()); var step := P.RequestLineTurn(old(Model()), bytes, receiveTime);
        parsed == step.ok && Model() == step.context && buf.Readable() == bytes[step.taken..]
    {
      var text := PeekLine(buf);
      if text.None? { return false; }
      parsed := ParseRequestLine(text.value, receiveTime);
      if parsed {
        state := P.ExpectHeaders;
        buf.RetrieveUntil(|text.value| + 2);
      }
    }

    /** The text up to the first CRLF. */
    method PeekLine(buf: Buffer) returns (text: Option<string>)
      requires buf.Valid()
      ensures text.None? <==> FirstCRLF(buf.Readable()).None?
      ensures text.Some? ==> FirstCRLF(buf.Readable()) == Some(|text.value|)
      ensures text.Some? ==> |text.value| + 2 <= |buf.Readable()| && text.value == buf.Readable()[..|text.value|]
    {
      var crlf := buf.FindCRLF();
      if crlf.None? { return None; }
      var line := buf.Peek(crlf.value);
      text := Some(line);
    }

    /** The asserts of SetMethod and SetVersion are the precondition. */
    method ParseRequestLine(text: string, receiveTime: int) returns (ok: bool)
      requires request.verb == None && request.version == None
      modifies this`request
      ensures ok == MatchRequestLine(text).Some?
      ensures ok ==> request == P.AfterRequestLine(old(request), MatchRequestLine(text).value, receiveTime)
      ensures !ok ==> request == old(request)
      ensures forall parts, space1, mark, space2 ::
                text == Assemble(parts, space1, mark, space2) && WellFormed(parts, mark)
                && All(space1, 0, |space1|, IsSpace) && All(space2, 0, |space2|, IsSpace) ==>
                  ok && request == old(request).(verb := Some(parts.verb), path := parts.path, query := parts.query,
                                                 version := Some(parts.version), receiveTime := receiveTime)
    {
      forall parts, space1, mark, space2 | text == Assemble(parts, space1, mark, space2) && WellFormed(parts, mark)
        && All(space1, 0, |space1|, IsSpace) && All(space2, 0, |space2|, IsSpace)
        ensures MatchRequestLine(text) == Some(parts)
      {
        RequestLineReadsBack(parts, space1, mark, space2);
      }
      var line := MatchRequestLine(text);
      ok := line.Some?;
      if ok {
        request := P.AfterRequestLine(request, line.value, receiveTime);
      }
    }

    /** The header branch on one line. */
    method TakeHeaderLine(buf: Buffer, ghost receiveTime: int) returns (ok: bool, hasMore: bool)
      requires buf.Valid() && state == P.ExpectHeaders
      modifies this, buf`readIndex, buf`writeIndex
      ensures buf.Valid() && (state == P.ExpectHeaders || state == P.ExpectBody)
      ensures var goal := P.Parse(old(Model()), old(buf.Readable()), receiveTime);
        if hasMore
        then ok && |buf.Readable()| < |old(buf.Readable())|
             && P.Parse(Model(), buf.Readable(), receiveTime) == goal
        else P.Outcome(Model(), buf.Readable(), ok) == goal
    {
      P.HeaderBranchStep(request, buf.Readable(), receiveTime);
      ok, hasMore := ReadHeaderLine(buf);
    }

    method ReadHeaderLine(buf: Buffer) returns (ok: bool, hasMore: bool)
      requires buf.Valid() && state == P.ExpectHeaders
      modifies this, buf`readIndex, buf`writeIndex
      ensures buf.Valid()
      ensures var bytes := old(buf.Readable()); var step := P.OneLine(old(request), bytes);
        && ok == step.ok && hasMore == step.hasMore
        && Model() == step.context && buf.Readable() == bytes[step.taken..]
    {
      var text := PeekLine(buf);
      if text.None? { return true, false; }
      var header := MatchHeader(text.value);
      if header.Some? {
        AddHeader(header.value);
        buf.RetrieveUntil(|text.value| + 2);
        return true, true;
      }
      if |text.value| != 0 { return false, false; }
      state := P.ExpectBody;
      buf.RetrieveUntil(2);
      return true, true;
    }

    method AddHeader(h: Header)
      modifies this`request
      ensures request == old(request).(headers := old(request).headers[h.key := h.value])
    {
      request := request.(headers := request.headers[h.key := h.value]);
    }
  }
}
