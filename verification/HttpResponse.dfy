/** The response printer of src/net/http/HttpResponse.cc, and how its header section reads back. */
module HttpPrinting {
  import opened Options
  import opened Text
  import opened HttpGrammar
  import opened HttpParsing

  datatype HttpResponse = HttpResponse(
    statusCode: nat,
    statusMessage: string,
    closeConnection: bool,
    headers: map<string, string>,
    body: string)

  /** HttpResponse(close). */
  function EmptyResponse(close: bool): HttpResponse {
    HttpResponse(0, "", close, map[], "")
  }

  const CRLF: string := "\r\n"

  const SNPRINTF_LIMIT: nat := 31      // sizeof(buf) - 1

  /** Up to this length the Content-Length line fits. */
  const LENGTH_LIMIT: nat := 10_000_000_000_000

  function Digit(d: nat): char
    requires d < 10
  {
    "0123456789"[d]
  }

  /** %d and %zd. */
  function Decimal(n: nat): (s: string)
    ensures s != ""
  {
    if n < 10 then [Digit(n)] else Decimal(n / 10) + [Digit(n % 10)]
  }

  function DecimalValue(s: string): nat {
    if s == "" then 0
    else DecimalValue(s[..|s| - 1]) * 10 + (if '0' <= s[|s| - 1] <= '9' then s[|s| - 1] as nat - '0' as nat else 0)
  }

  lemma {:induction false} DecimalReadsBack(n: nat)
    ensures DecimalValue(Decimal(n)) == n
    ensures forall i :: 0 <= i < |Decimal(n)| ==> '0' <= Decimal(n)[i] <= '9'
  {
    if n >= 10 {
      DecimalReadsBack(n / 10);
      assert Decimal(n)[..|Decimal(n)| - 1] == Decimal(n / 10);
    }
  }

  /** The text is a number in decimal, and that number is n. */
  ghost predicate Denotes(s: string, n: nat) {
    s != "" && (forall i :: 0 <= i < |s| ==> '0' <= s[i] <= '9') && DecimalValue(s) == n
  }

  /** snprintf into a buffer of 32 bytes, then strlen. */
  function Snprintf(s: string): string {
    if |s| <= SNPRINTF_LIMIT then s else s[..SNPRINTF_LIMIT]
  }

  function StatusLine(r: HttpResponse): string {
    Snprintf("HTTP/1.1 " + Decimal(r.statusCode) + " ") + r.statusMessage + CRLF
  }

  function LengthLine(n: nat): string {
    "Content-Length: " + (Decimal(n) + CRLF)
  }

  const CLOSE_LINE := "Connection: close\r\n"
  const KEEP_ALIVE_LINE := "Connection: Keep-Alive\r\n"

  function ConnectionLines(r: HttpResponse): string {
    if r.closeConnection then CLOSE_LINE
    else Snprintf(LengthLine(|r.body|)) + KEEP_ALIVE_LINE
  }

  function HeaderLine(h: Header): string {
    h.key + (": " + (h.value + CRLF))
  }

  /** The user's headers, in the order in which the map is traversed. */
  function UserLines(headers: map<string, string>, order: seq<string>): string
    requires forall k <- order :: k in headers
  {
    if order == [] then ""
    else HeaderLine(Header(order[0], headers[order[0]])) + UserLines(headers, order[1..])
  }

  lemma NextUserLine(before: string, headers: map<string, string>, order: seq<string>, i: nat)
    requires i < |order| && forall k <- order :: k in headers
    ensures before + HeaderLine(Header(order[i], headers[order[i]])) + UserLines(headers, order[i + 1..])
         == before + UserLines(headers, order[i..])
  {
    assert order[i..][1..] == order[i + 1..];
  }

  /** An order of traversal: every key, once. */
  ghost predicate Traverses(order: seq<string>, headers: map<string, string>) {
    && (forall k <- order :: k in headers) && (forall k <- headers :: k in order)
    && (forall i, j :: 0 <= i < j < |order| ==> order[i] != order[j])
  }

  function HeaderSection(r: HttpResponse, order: seq<string>): string
    requires forall k <- order :: k in r.headers
  {
    ConnectionLines(r) + (UserLines(r.headers, order) + CRLF)
  }

  function Print(r: HttpResponse, order: seq<string>): string
    requires forall k <- order :: k in r.headers
  {
    StatusLine(r) + HeaderSection(r, order) + r.body
  }

  /** What a header must look like for its printed line to read back as itself. */
  ghost predicate Printable(h: Header) {
    && h.key != "" && All(h.key, 0, |h.key|, NotColon) && (forall j :: !CRLFAt(h.key, j))
    && h.value != "" && All(h.value, 0, |h.value|, NotLineEnd)
    && (|h.value| == 1 || !IsSpace(h.value[0]))
  }

  ghost predicate AllPrintable(headers: map<string, string>) {
    forall k <- headers :: Printable(Header(k, headers[k]))
  }

  function TextOf(h: Header): string {
    h.key + (": " + h.value)
  }

  /** The first CRLF of a printed line is the one the printer put there. */
  lemma TextHasNoCRLF(h: Header, rest: string)
    requires forall j :: !CRLFAt(h.key, j) && !CRLFAt(h.value, j)
    requires h.value != "" && h.value[|h.value| - 1] != '\r'
    ensures FirstCRLF(TextOf(h) + (CRLF + rest)) == Some(|TextOf(h)|)
  {
    var line := TextOf(h) + (CRLF + rest);
    var n := |h.key|;
    assert line[n] == ':' && line[n + 1] == ' ';
    forall j | 0 <= j < |TextOf(h)|
      ensures !CRLFAt(line, j)
    {
      if j + 1 < n {
        assert line[j] == h.key[j] && line[j + 1] == h.key[j + 1] && !CRLFAt(h.key, j);
      } else if n + 2 <= j {
        assert line[j] == h.value[j - n - 2] && !CRLFAt(h.value, j - n - 2);
        assert j + 1 < |TextOf(h)| ==> line[j + 1] == h.value[j - n - 1];
      }
    }
    assert line[|TextOf(h)|] == '\r' && line[|TextOf(h)| + 1] == '\n';
    FirstCRLFIs(line, |TextOf(h)|);
  }

  lemma TextMatches(h: Header)
    requires Printable(h)
    ensures MatchHeader(TextOf(h)) == Some(h)
  {
    var text := TextOf(h);
    var c := HeaderCut(|h.key|, |h.key| + 2);
    FromPart(text, 0, h.key, NotColon);
    FromPart(text, c.value, h.value, NotLineEnd);
    HeaderCutIsLargest(text, c);
    assert text[c.value] == h.value[0];
    assert text[..c.colon] == h.key && text[c.value..] == h.value;
  }

  /** The printed line of a printable header is consumed whole and adds exactly that header. */
  lemma LineIsConsumed(headers: map<string, string>, h: Header, rest: string)
    requires Printable(h)
    ensures ParseHeaders(headers, HeaderLine(h) + rest) == ParseHeaders(headers[h.key := h.value], rest)
  {
    var bytes := HeaderLine(h) + rest;
    assert bytes == TextOf(h) + (CRLF + rest);
    TextHasNoCRLF(h, rest);
    TextMatches(h);
    assert bytes[..|TextOf(h)|] == TextOf(h) && bytes[|TextOf(h)| + 2..] == rest;
  }

  /** Whatever the header pattern matches is a printable header. */
  lemma MatchedIsPrintable(line: string)
    requires MatchHeader(line).Some? && forall j :: !CRLFAt(line, j)
    ensures Printable(MatchHeader(line).value)
  {
    var c := CutHeader(line).value;
    var h := MatchHeader(line).value;
    assert forall j :: CRLFAt(h.key, j) ==> CRLFAt(line, j);
    assert h.value[0] == line[c.value];
  }

  lemma FirstLineIsPrintable(bytes: string)
    requires FirstCRLF(bytes).Some? && MatchHeader(bytes[..FirstCRLF(bytes).value]).Some?
    ensures Printable(MatchHeader(bytes[..FirstCRLF(bytes).value]).value)
  {
    var line := bytes[..FirstCRLF(bytes).value];
    assert forall j :: CRLFAt(line, j) ==> CRLFAt(bytes, j);
    MatchedIsPrintable(line);
  }

  lemma {:induction false} ParsedArePrintable(headers: map<string, string>, bytes: string)
    requires AllPrintable(headers)
    ensures AllPrintable(ParseHeaders(headers, bytes).headers)
    decreases |bytes|
  {
    var k := FirstCRLF(bytes);
    if k.Some? && MatchHeader(bytes[..k.value]).Some? {
      FirstHeaderIsPrintable(headers, bytes);
      var h := MatchHeader(bytes[..k.value]).value;
      ParsedArePrintable(headers[h.key := h.value], bytes[k.value + 2..]);
    }
  }

  lemma FirstHeaderIsPrintable(headers: map<string, string>, bytes: string)
    requires FirstCRLF(bytes).Some? && MatchHeader(bytes[..FirstCRLF(bytes).value]).Some? && AllPrintable(headers)
    ensures var k := FirstCRLF(bytes).value; var h := MatchHeader(bytes[..k]).value;
      AllPrintable(headers[h.key := h.value])
      && ParseHeaders(headers, bytes) == ParseHeaders(headers[h.key := h.value], bytes[k + 2..])
  {
    FirstLineIsPrintable(bytes);
    OneHeader(headers, bytes);
  }

  lemma EndOfHeaders(parsed: map<string, string>, rest: string)
    ensures ParseHeaders(parsed, CRLF + rest) == Done(parsed, rest)
  {
    assert CRLFAt(CRLF + rest, 0);
    FirstCRLFIs(CRLF + rest, 0);
    assert (CRLF + rest)[..0] == "" && (CRLF + rest)[2..] == rest;
  }

  /** The part of the headers that the traversal reaches. */
  function Visited(headers: map<string, string>, order: seq<string>): map<string, string>
    requires forall k <- order :: k in headers
  {
    map k | k in order :: headers[k]
  }

  lemma VisitFirst(parsed: map<string, string>, headers: map<string, string>, order: seq<string>)
    requires order != [] && forall k <- order :: k in headers
    ensures parsed[order[0] := headers[order[0]]] + Visited(headers, order[1..]) == parsed + Visited(headers, order)
  {
    assert order == [order[0]] + order[1..];
  }

  lemma FirstUserLine(parsed: map<string, string>, headers: map<string, string>, order: seq<string>, rest: string)
    requires order != [] && (forall k <- order :: k in headers)
    requires Printable(Header(order[0], headers[order[0]]))
    ensures ParseHeaders(parsed, UserLines(headers, order) + rest)
         == ParseHeaders(parsed[order[0] := headers[order[0]]], UserLines(headers, order[1..]) + rest)
  {
    var h := Header(order[0], headers[order[0]]);
    assert UserLines(headers, order) + rest == HeaderLine(h) + (UserLines(headers, order[1..]) + rest);
    LineIsConsumed(parsed, h, UserLines(headers, order[1..]) + rest);
  }

  lemma {:induction false} UserLinesReadBack(
    parsed: map<string, string>, headers: map<string, string>, order: seq<string>, rest: string)
    requires (forall k <- order :: k in headers) && AllPrintable(headers)
    ensures ParseHeaders(parsed, UserLines(headers, order) + (CRLF + rest))
         == Done(parsed + Visited(headers, order), rest)
    decreases |order|
  {
    if order == [] {
      assert "" + (CRLF + rest) == CRLF + rest;
      EndOfHeaders(parsed, rest);
      assert parsed + Visited(headers, order) == parsed;
    } else {
      FirstUserLine(parsed, headers, order, CRLF + rest);
      UserLinesReadBack(parsed[order[0] := headers[order[0]]], headers, order[1..], rest);
      VisitFirst(parsed, headers, order);
    }
  }

  /** The headers the printer adds by itself. */
  function OwnHeaders(r: HttpResponse): map<string, string> {
    if r.closeConnection then map["Connection" := "close"]
    else map["Content-Length" := Decimal(|r.body|), "Connection" := "Keep-Alive"]
  }

  // The Content-Length line in its 32 bytes.

  function Pow10(k: nat): nat {
    if k == 0 then 1 else 10 * Pow10(k - 1)
  }

  lemma {:induction false} DecimalLength(n: nat, k: nat)
    requires k > 0
    ensures |Decimal(n)| <= k <==> n < Pow10(k)
    decreases k
  {
    if k == 1 {
      assert Pow10(1) == 10 * Pow10(0);
    } else if n >= 10 {
      DecimalLength(n / 10, k - 1);
    } else {
      DecimalLength(n, k - 1);
    }
  }

  /** The line is cut short exactly from ten thousand billion bytes on. */
  lemma LengthLineFits(n: nat)
    ensures Snprintf(LengthLine(n)) == LengthLine(n) <==> n < LENGTH_LIMIT
  {
    DecimalLength(n, 13);
    var million := Pow10(6);
    assert million == 1_000_000;
    assert Pow10(13) == LENGTH_LIMIT;
  }

  const KEEP_ALIVE := Header("Connection", "Keep-Alive")
  const CLOSE := Header("Connection", "close")

  function LengthHeader(n: nat): Header {
    Header("Content-Length", Decimal(n))
  }

  lemma ConnectionIsPrintable()
    ensures Printable(KEEP_ALIVE) && Printable(CLOSE)
  {
    assert KEEP_ALIVE.value[0] == 'K' && CLOSE.value[0] == 'c';
  }

  lemma LengthIsPrintable(value: string)
    requires value != "" && !IsSpace(value[0]) && All(value, 0, |value|, NotLineEnd)
    ensures Printable(Header("Content-Length", value))
  {
  }

  lemma DecimalIsPrintable(n: nat)
    ensures Printable(LengthHeader(n))
  {
    DecimalReadsBack(n);
    var value := Decimal(n);
    assert '0' <= value[0] <= '9';
    LengthIsPrintable(value);
  }

  lemma KeepAliveIsConsumed(headers: map<string, string>, rest: string)
    ensures ParseHeaders(headers, KEEP_ALIVE_LINE + rest) == ParseHeaders(headers["Connection" := "Keep-Alive"], rest)
  {
    ConnectionIsPrintable();
    assert HeaderLine(KEEP_ALIVE) == KEEP_ALIVE_LINE;
    LineIsConsumed(headers, KEEP_ALIVE, rest);
  }

  lemma CloseIsConsumed(headers: map<string, string>, rest: string)
    ensures ParseHeaders(headers, CLOSE_LINE + rest) == ParseHeaders(headers["Connection" := "close"], rest)
  {
    ConnectionIsPrintable();
    assert HeaderLine(CLOSE) == CLOSE_LINE;
    LineIsConsumed(headers, CLOSE, rest);
  }

  lemma LengthIsConsumed(headers: map<string, string>, n: nat, rest: string)
    ensures ParseHeaders(headers, LengthLine(n) + rest) == ParseHeaders(headers["Content-Length" := Decimal(n)], rest)
  {
    DecimalIsPrintable(n);
    assert HeaderLine(LengthHeader(n)) == LengthLine(n);
    LineIsConsumed(headers, LengthHeader(n), rest);
  }

  lemma OwnLinesReadBack(r: HttpResponse, rest: string)
    requires r.closeConnection || |r.body| < LENGTH_LIMIT
    ensures ParseHeaders(map[], ConnectionLines(r) + rest) == ParseHeaders(OwnHeaders(r), rest)
  {
    if r.closeConnection {
      CloseIsConsumed(map[], rest);
    } else {
      var n := |r.body|;
      LengthLineFits(n);
      assert ConnectionLines(r) + rest == LengthLine(n) + (KEEP_ALIVE_LINE + rest);
      LengthIsConsumed(map[], n, KEEP_ALIVE_LINE + rest);
      KeepAliveIsConsumed(map["Content-Length" := Decimal(n)], rest);
    }
  }

  ghost predicate HeadersReadBack(r: HttpResponse, order: seq<string>, rest: string)
    requires forall k <- order :: k in r.headers
  {
    ParseHeaders(map[], HeaderSection(r, order) + rest) == Done(OwnHeaders(r) + r.headers, rest)
  }

  lemma SectionSplit(r: HttpResponse, order: seq<string>, rest: string)
    requires forall k <- order :: k in r.headers
    ensures HeaderSection(r, order) + rest == ConnectionLines(r) + (UserLines(r.headers, order) + (CRLF + rest))
  {
    Regroup(ConnectionLines(r), UserLines(r.headers, order), CRLF, rest);
  }

  lemma Regroup(a: string, b: string, c: string, d: string)
    ensures (a + (b + c)) + d == a + (b + (c + d))
  {
  }

  lemma VisitsAll(headers: map<string, string>, order: seq<string>)
    requires Traverses(order, headers)
    ensures Visited(headers, order) == headers
  {
  }

  lemma PrintableSectionReadsBack(r: HttpResponse, order: seq<string>, rest: string)
    requires Traverses(order, r.headers) && AllPrintable(r.headers)
    requires r.closeConnection || |r.body| < LENGTH_LIMIT
    ensures HeadersReadBack(r, order, rest)
  {
    SectionSplit(r, order, rest);
    OwnLinesReadBack(r, UserLines(r.headers, order) + (CRLF + rest));
    UserLinesReadBack(OwnHeaders(r), r.headers, order, rest);
    VisitsAll(r.headers, order);
  }

  lemma ReadBackNeedsPrintable(r: HttpResponse, order: seq<string>, rest: string)
    requires (forall k <- order :: k in r.headers) && HeadersReadBack(r, order, rest)
    ensures AllPrintable(r.headers)
  {
    ParsedArePrintable(map[], HeaderSection(r, order) + rest);
    var parsed := OwnHeaders(r) + r.headers;
    assert forall k <- r.headers :: k in parsed && parsed[k] == r.headers[k];
  }

  // What becomes of a Content-Length line that does not fit.

  /** The value that the parser finds in the line cut short, which runs into the next line. */
  function OverlongValue(n: nat): string
    requires |Decimal(n)| > 13
  {
    (Decimal(n) + CRLF)[..15] + "Connection: Keep-Alive"
  }

  lemma OverlongLine(n: nat, rest: string)
    requires |Decimal(n)| > 13
    ensures Snprintf(LengthLine(n)) + KEEP_ALIVE_LINE + rest
         == HeaderLine(Header("Content-Length", OverlongValue(n))) + rest
  {
    var short := (Decimal(n) + CRLF)[..15];
    assert LengthLine(n)[..31] == "Content-Length: " + short;
    RegroupLine("Content-Length", short, "Connection: Keep-Alive", CRLF, rest);
    assert "Content-Length" + ": " == "Content-Length: ";
    assert "Connection: Keep-Alive" + CRLF == KEEP_ALIVE_LINE;
  }

  lemma RegroupLine(key: string, a: string, b: string, end: string, rest: string)
    ensures ((key + ": ") + a) + (b + end) + rest == key + (": " + ((a + b) + end)) + rest
  {
  }

  lemma OverlongValueDiffers(n: nat)
    requires |Decimal(n)| > 13
    ensures OverlongValue(n) != Decimal(n) && !Denotes(OverlongValue(n), n)
  {
    DecimalReadsBack(n);
    var v := OverlongValue(n);
    assert v[|v| - 1] == 'e';
  }

  /** Fifteen digits or more: the digits run into the Connection line. */
  lemma OverlongIsMisread(headers: map<string, string>, n: nat, rest: string)
    requires |Decimal(n)| > 14
    ensures ParseHeaders(headers, Snprintf(LengthLine(n)) + KEEP_ALIVE_LINE + rest)
         == ParseHeaders(headers["Content-Length" := OverlongValue(n)], rest)
  {
    DecimalReadsBack(n);
    var v := OverlongValue(n);
    assert v == Decimal(n)[..15] + "Connection: Keep-Alive";
    assert '0' <= v[0] <= '9';
    LengthIsPrintable(v);
    OverlongLine(n, rest);
    LineIsConsumed(headers, Header("Content-Length", v), rest);
  }

  lemma FourteenDigitValue(n: nat)
    requires |Decimal(n)| == 14
    ensures var v := OverlongValue(n);
      |v| == 37 && '0' <= v[0] <= '9' && v[14] == '\r' && v[36] == 'e' && forall j :: !CRLFAt(v, j)
  {
    DecimalReadsBack(n);
    var v := OverlongValue(n);
    assert v == Decimal(n) + ("\r" + "Connection: Keep-Alive");
    assert forall j :: 0 <= j < 22 ==> "Connection: Keep-Alive"[j] != '\n';
    assert forall j :: 0 <= j < 37 ==> v[j] != '\n';
  }

  lemma UnmatchedIsMalformed(headers: map<string, string>, h: Header, rest: string)
    requires FirstCRLF(TextOf(h) + (CRLF + rest)) == Some(|TextOf(h)|)
    requires MatchHeader(TextOf(h)) == None
    ensures ParseHeaders(headers, HeaderLine(h) + rest).Malformed?
  {
    var bytes := HeaderLine(h) + rest;
    assert bytes == TextOf(h) + (CRLF + rest) && bytes[..|TextOf(h)|] == TextOf(h);
  }

  lemma OverlongTextIsMalformed(headers: map<string, string>, value: string, rest: string)
    requires |value| > 14 && !IsSpace(value[0]) && value[14] == '\r' && value[|value| - 1] != '\r'
    requires forall j :: !CRLFAt(value, j)
    ensures ParseHeaders(headers, HeaderLine(Header("Content-Length", value)) + rest).Malformed?
  {
    var h := Header("Content-Length", value);
    TextHasNoCRLF(h, rest);
    var text := TextOf(h);
    assert text[14] == ':' && text[16] == value[0] && text[30] == value[14];
    NoHeaderWithLineEnd(text, 14, 30);
    UnmatchedIsMalformed(headers, h, rest);
  }

  /** Fourteen digits: the carriage return stays, and no header matches. */
  lemma FourteenDigitsAreMalformed(headers: map<string, string>, n: nat, rest: string)
    requires |Decimal(n)| == 14
    ensures ParseHeaders(headers, Snprintf(LengthLine(n)) + KEEP_ALIVE_LINE + rest).Malformed?
  {
    FourteenDigitValue(n);
    OverlongLine(n, rest);
    OverlongTextIsMalformed(headers, OverlongValue(n), rest);
  }

  lemma NoHeaderWithLineEnd(line: string, colon: nat, at: nat)
    requires colon + 2 < at < |line| && All(line, 0, colon, NotColon) && line[colon] == ':'
    requires !IsSpace(line[colon + 2]) && line[at] == '\r'
    ensures MatchHeader(line) == None
  {
  }

  /** The user's headers can make up for both lines that are lost. */
  lemma OverlongMap(r: HttpResponse)
    requires !r.closeConnection && |Decimal(|r.body|)| > 13
    ensures map["Content-Length" := OverlongValue(|r.body|)] + r.headers == OwnHeaders(r) + r.headers
      <==> "Content-Length" in r.headers && "Connection" in r.headers
  {
    var n := |r.body|;
    OverlongValueDiffers(n);
    var read, meant := map["Content-Length" := OverlongValue(n)] + r.headers, OwnHeaders(r) + r.headers;
    if "Content-Length" !in r.headers {
      assert read["Content-Length"] == OverlongValue(n) && meant["Content-Length"] == Decimal(n);
    } else if "Connection" !in r.headers {
      assert "Connection" in meant && "Connection" !in read;
    }
  }

  /** What a section of printable headers reads as, behind a Content-Length line that does not fit. */
  lemma OverlongSectionReads(r: HttpResponse, order: seq<string>, rest: string)
    requires Traverses(order, r.headers) && AllPrintable(r.headers)
    requires !r.closeConnection && |Decimal(|r.body|)| > 13
    ensures var o := ParseHeaders(map[], HeaderSection(r, order) + rest);
      if |Decimal(|r.body|)| == 14 then o.Malformed?
      else o == Done(map["Content-Length" := OverlongValue(|r.body|)] + r.headers, rest)
  {
    var n, tail := |r.body|, UserLines(r.headers, order) + (CRLF + rest);
    SectionSplit(r, order, rest);
    assert ConnectionLines(r) + tail == Snprintf(LengthLine(n)) + KEEP_ALIVE_LINE + tail;
    if |Decimal(n)| == 14 {
      FourteenDigitsAreMalformed(map[], n, tail);
    } else {
      OverlongIsMisread(map[], n, tail);
      UserLinesReadBack(map["Content-Length" := OverlongValue(n)], r.headers, order, rest);
      VisitsAll(r.headers, order);
    }
  }

  lemma OverlongSection(r: HttpResponse, order: seq<string>, rest: string)
    requires Traverses(order, r.headers) && !r.closeConnection && |Decimal(|r.body|)| > 13
    ensures HeadersReadBack(r, order, rest) <==>
      AllPrintable(r.headers) && |Decimal(|r.body|)| > 14 && "Content-Length" in r.headers && "Connection" in r.headers
  {
    if HeadersReadBack(r, order, rest) {
      ReadBackNeedsPrintable(r, order, rest);
    }
    if AllPrintable(r.headers) {
      OverlongSectionReads(r, order, rest);
      OverlongMap(r);
    }
  }

  /** From here on the digits run into the next line, and the carriage return is lost. */
  const RUN_ON_LIMIT: nat := 100_000_000_000_000

  lemma OverlongLengths(n: nat)
    ensures |Decimal(n)| > 13 <==> n >= LENGTH_LIMIT
    ensures |Decimal(n)| > 14 <==> n >= RUN_ON_LIMIT
  {
    DecimalLength(n, 13);
    DecimalLength(n, 14);
    var million := Pow10(6);
    assert million == 1_000_000;
    assert Pow10(13) == LENGTH_LIMIT;
    assert Pow10(14) == RUN_ON_LIMIT;
  }

  /** The Content-Length line does no harm: it is not printed, or printed whole, or everything it
      spoils is among the user's own headers, which come later. */
  predicate LengthIsHarmless(r: HttpResponse) {
    || r.closeConnection || |r.body| < LENGTH_LIMIT
    || (|r.body| >= RUN_ON_LIMIT && "Content-Length" in r.headers && "Connection" in r.headers)
  }

  // The status line.

  predicate IsDigit(c: char) { '0' <= c <= '9' }

  /** A status line taken apart: the number behind the version, and what follows the next space. */
  function ReadStatus(line: string): Option<(nat, string)> {
    if !(STATUS_START <= line) then None
    else
      var n := Skip(line, |STATUS_START|, IsDigit);
      if n == |STATUS_START| || n >= |line| || line[n] != ' ' then None
      else Some((DecimalValue(line[|STATUS_START|..n]), line[n + 1..]))
  }

  const STATUS_START := "HTTP/1.1 "

  const INT_MAX: nat := 0x7FFF_FFFF

  lemma StatusFits(code: nat)
    requires code <= INT_MAX
    ensures Snprintf("HTTP/1.1 " + Decimal(code) + " ") == STATUS_START + (Decimal(code) + " ")
  {
    DecimalLength(code, 10);
    var million := Pow10(6);
    assert million == 1_000_000;
    assert "HTTP/1.1 " + Decimal(code) + " " == STATUS_START + (Decimal(code) + " ");
  }

  function StatusText(code: nat, message: string): string {
    STATUS_START + (Decimal(code) + (" " + message))
  }

  /** Where the message starts. */
  function MessageStart(code: nat): nat {
    |STATUS_START| + |Decimal(code)| + 1
  }

  lemma StatusTextParts(code: nat, message: string)
    ensures var line, n := StatusText(code, message), MessageStart(code);
      && |line| == n + |message| && line[n..] == message && line[n - 1] == ' '
      && STATUS_START <= line && line[|STATUS_START|..n - 1] == Decimal(code)
  {
  }

  lemma StatusIsRead(code: nat, message: string)
    ensures ReadStatus(StatusText(code, message)) == Some((code, message))
  {
    DecimalReadsBack(code);
    StatusTextParts(code, message);
    var line, n := StatusText(code, message), MessageStart(code) - 1;
    assert forall i :: |STATUS_START| <= i < n ==> line[i] == Decimal(code)[i - |STATUS_START|];
    SkipAtLeast(line, |STATUS_START|, IsDigit, n);
  }

  lemma PrintStartsWithStatus(r: HttpResponse, order: seq<string>)
    requires (forall k <- order :: k in r.headers) && r.statusCode <= INT_MAX
    ensures var line, text := StatusText(r.statusCode, r.statusMessage), Print(r, order);
      |line| + 2 <= |text| && text[..|line|] == line && text[|line|] == '\r' && text[|line| + 1] == '\n'
  {
    StatusFits(r.statusCode);
    var line := StatusText(r.statusCode, r.statusMessage);
    assert StatusLine(r) == line + CRLF && StatusLine(r) <= Print(r, order);
  }

  lemma NoReturnInNumber(code: nat, message: string, j: nat)
    requires j < MessageStart(code)
    ensures |StatusText(code, message)| >= MessageStart(code) && StatusText(code, message)[j] != '\r'
  {
    DecimalReadsBack(code);
    StatusTextParts(code, message);
    var line, n := StatusText(code, message), MessageStart(code) - 1;
    if |STATUS_START| <= j < n {
      assert line[j] == line[|STATUS_START|..n][j - |STATUS_START|];
    }
  }

  /** The CRLFs of the line are those of the message. */
  lemma CRLFsAreInMessage(code: nat, message: string)
    ensures forall j :: CRLFAt(message, j) ==> CRLFAt(StatusText(code, message), MessageStart(code) + j)
    ensures forall j :: CRLFAt(StatusText(code, message), j) ==>
              MessageStart(code) <= j && CRLFAt(message, j - MessageStart(code))
  {
    StatusTextParts(code, message);
    var line, n := StatusText(code, message), MessageStart(code);
    assert forall i :: 0 <= i < |message| ==> line[n + i] == line[n..][i] == message[i];
    assert forall i :: n <= i < |line| ==> line[i] == message[i - n];
    forall j: nat | j < n
      ensures line[j] != '\r'
    {
      NoReturnInNumber(code, message, j);
    }
  }

  /** The first CRLF of a text that starts with a line and a CRLF is there, or within the line. */
  lemma FirstCRLFOfLine(line: string, text: string)
    requires |line| + 2 <= |text| && text[..|line|] == line && text[|line|] == '\r' && text[|line| + 1] == '\n'
    ensures FirstCRLF(text).Some?
    ensures var k := FirstCRLF(text).value;
      && k <= |line| && text[..k] == line[..k]
      && (forall j :: CRLFAt(line, j) ==> k <= j) && (k < |line| ==> CRLFAt(line, k))
  {
    assert CRLFAt(text, |line|);
    var k := FirstCRLF(text).value;
    assert forall i :: 0 <= i < |line| ==> text[i] == text[..|line|][i] == line[i];
    assert forall j :: CRLFAt(line, j) ==> CRLFAt(text, j);
    assert text[k + 1] == '\n' && k + 1 != |line|;
    assert text[..k] == text[..|line|][..k];
  }

  /** The status code and message read back from the first line exactly if the message holds no
      CRLF. */
  lemma StatusReadsBack(r: HttpResponse, order: seq<string>)
    requires (forall k <- order :: k in r.headers) && r.statusCode <= INT_MAX
    ensures var text := Print(r, order);
      && FirstCRLF(text).Some?
      && (ReadStatus(text[..FirstCRLF(text).value]) == Some((r.statusCode, r.statusMessage)) <==>
          forall j :: !CRLFAt(r.statusMessage, j))
  {
    PrintStartsWithStatus(r, order);
    StatusIsReadIff(r.statusCode, r.statusMessage, Print(r, order));
  }

  lemma StatusIsReadIff(code: nat, message: string, text: string)
    requires var line := StatusText(code, message);
      |line| + 2 <= |text| && text[..|line|] == line && text[|line|] == '\r' && text[|line| + 1] == '\n'
    ensures FirstCRLF(text).Some?
    ensures ReadStatus(text[..FirstCRLF(text).value]) == Some((code, message)) <==> forall j :: !CRLFAt(message, j)
  {
    var line := StatusText(code, message);
    FirstCRLFOfLine(line, text);
    CRLFsAreInMessage(code, message);
    var k := FirstCRLF(text).value;
    if k == |line| {
      StatusIsRead(code, message);
      assert line[..k] == line;
      assert forall j :: !CRLFAt(line, j);
    } else {
      assert CRLFAt(message, k - MessageStart(code));
      CutStatusIsRead(code, message, k);
    }
  }

  lemma CutStatusIsRead(code: nat, message: string, k: nat)
    requires MessageStart(code) <= k < |StatusText(code, message)|
    ensures ReadStatus(StatusText(code, message)[..k]) != Some((code, message))
  {
    StatusTextParts(code, message);
    var short := message[..k - MessageStart(code)];
    StatusIsRead(code, short);
    assert StatusText(code, short) == StatusText(code, message)[..k];
  }

  /** The printed header section reads back as the user's headers on top of the printer's own, with
      Content-Length equal to the size of the body, exactly when every user header is printable
      and the Content-Length line does no harm. */
  lemma SectionReadsBackIff(r: HttpResponse, order: seq<string>, rest: string)
    requires Traverses(order, r.headers)
    ensures HeadersReadBack(r, order, rest) <==> AllPrintable(r.headers) && LengthIsHarmless(r)
  {
    OverlongLengths(|r.body|);
    if HeadersReadBack(r, order, rest) {
      ReadBackNeedsPrintable(r, order, rest);
    }
    if !r.closeConnection && |r.body| >= LENGTH_LIMIT {
      OverlongSection(r, order, rest);
    } else if AllPrintable(r.headers) {
      PrintableSectionReadsBack(r, order, rest);
    }
  }
}

/** The response object, and its printing into a buffer. */
module HttpResponses {
  import opened Buffers
  import G = HttpGrammar
  import P = HttpPrinting

  class HttpResponse {
    var statusCode: nat
    var statusMessage: string
    var closeConnection: bool
    var headers: map<string, string>
    var body: string

    function Model(): P.HttpResponse
      reads this
    {
      P.HttpResponse(statusCode, statusMessage, closeConnection, headers, body)
    }

    constructor (close: bool)
      ensures Model() == P.EmptyResponse(close)
    {
      statusCode, statusMessage, closeConnection, headers, body := 0, "", close, map[], "";
    }

    method AddHeader(key: string, value: string)
      modifies this`headers
      ensures headers == old(headers)[key := value]
    {
      headers := headers[key := value];
    }

    /** What the user's callback does to the response through its setters. */
    method Fill(r: P.HttpResponse)
      modifies this
      ensures Model() == r
    {
      statusCode, statusMessage, closeConnection := r.statusCode, r.statusMessage, r.closeConnection;
      headers, body := r.headers, r.body;
    }

    /** `order` is the order in which the map of headers is traversed. */
    method AppendToBuffer(output: Buffer, order: seq<string>)
      requires output.Valid() && forall k <- order :: k in headers
      modifies output, output.buffer
      ensures output.Valid() && output.Readable() == old(output.Readable()) + P.Print(Model(), order)
      ensures output.buffer == old(output.buffer) || fresh(output.buffer)
    {
      AppendStatusLine(output);
      AppendConnectionLines(output);
      AppendUserLines(output, order);
      output.Append(P.CRLF);
      output.Append(body);
      ghost var before, r := old(output.Readable()), Model();
      Regroup(before, P.StatusLine(r), P.ConnectionLines(r), P.UserLines(headers, order), P.CRLF, body);
    }

    method AppendStatusLine(output: Buffer)
      requires output.Valid()
      modifies output, output.buffer
      ensures output.Valid() && output.Readable() == old(output.Readable()) + P.StatusLine(Model())
      ensures output.buffer == old(output.buffer) || fresh(output.buffer)
    {
      output.Append(P.Snprintf("HTTP/1.1 " + P.Decimal(statusCode) + " "));
      output.Append(statusMessage);
      output.Append(P.CRLF);
      ghost var start := P.Snprintf("HTTP/1.1 " + P.Decimal(statusCode) + " ");
      RegroupStatus(old(output.Readable()), start, statusMessage, P.CRLF);
    }

    method AppendConnectionLines(output: Buffer)
      requires output.Valid()
      modifies output, output.buffer
      ensures output.Valid() && output.Readable() == old(output.Readable()) + P.ConnectionLines(Model())
      ensures output.buffer == old(output.buffer) || fresh(output.buffer)
    {
      if closeConnection {
        output.Append(P.CLOSE_LINE);
      } else {
        ghost var before := output.Readable();
        output.Append(P.Snprintf(P.LengthLine(|body|)));
        output.Append(P.KEEP_ALIVE_LINE);
        RegroupTwo(before, P.Snprintf(P.LengthLine(|body|)), P.KEEP_ALIVE_LINE);
      }
    }

    method AppendUserLines(output: Buffer, order: seq<string>)
      requires output.Valid() && forall k <- order :: k in headers
      modifies output, output.buffer
      ensures output.Valid() && output.Readable() == old(output.Readable()) + P.UserLines(headers, order)
      ensures output.buffer == old(output.buffer) || fresh(output.buffer)
    {
      ghost var goal := output.Readable() + P.UserLines(headers, order);
      for i := 0 to |order|
        invariant output.Valid() && (output.buffer == old(output.buffer) || fresh(output.buffer))
        invariant output.Readable() + P.UserLines(headers, order[i..]) == goal
      {
        ghost var before := output.Readable();
        AppendHeader(output, order[i], headers[order[i]]);
        P.NextUserLine(before, headers, order, i);
      }
    }

    method AppendHeader(output: Buffer, key: string, value: string)
      requires output.Valid()
      modifies output, output.buffer
      ensures output.Valid() && output.Readable() == old(output.Readable()) + P.HeaderLine(G.Header(key, value))
      ensures output.buffer == old(output.buffer) || fresh(output.buffer)
    {
      ghost var before := output.Readable();
      output.Append(key);
      output.Append(": ");
      output.Append(value);
      output.Append(P.CRLF);
      RegroupLine(before, key, ": ", value, P.CRLF);
    }

    lemma RegroupTwo(a: string, b: string, c: string)
      ensures a + b + c == a + (b + c)
    {
    }

    lemma RegroupLine(a: string, b: string, c: string, d: string, e: string)
      ensures a + b + c + d + e == a + (b + (c + (d + e)))
    {
    }

    lemma RegroupStatus(a: string, b: string, c: string, d: string)
      ensures a + b + c + d == a + (b + c + d)
    {
    }

    lemma Regroup(a: string, b: string, c: string, d: string, e: string, f: string)
      ensures a + b + c + d + e + f == a + (b + (c + (d + e)) + f)
    {
    }
  }
}
