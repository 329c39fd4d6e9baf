/** The two regular expressions of src/net/http/HttpContext.cc. Each is given as a relation that
    says which positions may cut the line, and as the direct splitter that finds the cut a matcher
    reports, in which every repetition takes as much as it can. */
module HttpGrammar {
  import opened Options

  predicate IsSpace(c: char) {
    c == ' ' || c == '\t' || c == '\n' || c == '\r' || c == '\U{0B}' || c == '\U{0C}'
  }

  predicate IsWord(c: char) {
    'a' <= c <= 'z' || 'A' <= c <= 'Z' || '0' <= c <= '9' || c == '_'
  }

  predicate IsPathChar(c: char) { IsWord(c) || c == '/' || c == '.' }

  /** The class also spans everything from '%' to '='. */
  predicate IsQueryChar(c: char) { '%' <= c <= '=' || c == '&' || IsWord(c) }

  predicate NotLineEnd(c: char) { c != '\n' && c != '\r' }

  predicate NotColon(c: char) { c != ':' }

  ghost predicate All(s: string, lo: int, hi: int, p: char -> bool)
    requires 0 <= lo && hi <= |s|
  {
    forall i :: lo <= i < hi ==> p(s[i])
  }

  /** The end of the longest run of characters satisfying p that starts at i. */
  function Skip(s: string, i: nat, p: char -> bool): (j: nat)
    requires i <= |s|
    ensures i <= j <= |s| && All(s, i, j, p) && (j < |s| ==> !p(s[j]))
    decreases |s| - i
  {
    if i == |s| || !p(s[i]) then i else Skip(s, i + 1, p)
  }

  lemma {:induction false} SkipAtLeast(s: string, i: nat, p: char -> bool, n: nat)
    requires i <= n <= |s| && All(s, i, n, p)
    ensures n <= Skip(s, i, p)
    ensures n == |s| || !p(s[n]) ==> Skip(s, i, p) == n
    decreases n - i
  {
    if i < n {
      SkipAtLeast(s, i + 1, p, n);
    }
  }

  // ([^:]+):\s*(.+)

  /** Where the colon is and where the value starts. */
  datatype HeaderCut = HeaderCut(colon: nat, value: nat)

  ghost predicate CutsHeader(line: string, c: HeaderCut) {
    && 0 < c.colon < c.value < |line|
    && All(line, 0, c.colon, NotColon) && line[c.colon] == ':'
    && All(line, c.colon + 1, c.value, IsSpace)
    && All(line, c.value, |line|, NotLineEnd)
  }

  /** The space takes all it can, but leaves the value one character. */
  function CutHeader(line: string): (r: Option<HeaderCut>)
    ensures r.Some? ==> CutsHeader(line, r.value)
  {
    var colon := Skip(line, 0, NotColon);
    if colon == 0 || colon + 1 >= |line| then None
    else
      var end := Skip(line, colon + 1, IsSpace);
      var value := if end < |line| then end else |line| - 1;
      if Skip(line, value, NotLineEnd) < |line| then None else Some(HeaderCut(colon, value))
  }

  /** Every allowed cut has the same colon and starts the value no later. */
  lemma HeaderCutIsLargest(line: string, c: HeaderCut)
    requires CutsHeader(line, c)
    ensures CutHeader(line).Some?
    ensures CutHeader(line).value.colon == c.colon && c.value <= CutHeader(line).value.value
  {
    SkipAtLeast(line, 0, NotColon, c.colon);
    SkipAtLeast(line, c.colon + 1, IsSpace, c.value);
    var value := if Skip(line, c.colon + 1, IsSpace) < |line| then Skip(line, c.colon + 1, IsSpace) else |line| - 1;
    SkipAtLeast(line, value, NotLineEnd, |line|);
  }

  /** The splitter reports a cut exactly when it is the allowed cut with the longest space. */
  lemma HeaderCutIsGreedy(line: string, c: HeaderCut)
    ensures CutHeader(line) == Some(c) <==>
      CutsHeader(line, c) && forall c' :: CutsHeader(line, c') ==> c'.value <= c.value
  {
    forall c' | CutsHeader(line, c')
      ensures CutHeader(line).Some?
      ensures CutHeader(line).value.colon == c'.colon && c'.value <= CutHeader(line).value.value
    {
      HeaderCutIsLargest(line, c');
    }
  }

  datatype Header = Header(key: string, value: string)

  function MatchHeader(line: string): Option<Header> {
    match CutHeader(line)
    case None => None
    case Some(c) => Some(Header(line[..c.colon], line[c.value..]))
  }

  // (GET|POST|HEAD|PUT|DELETE)\s*([\w/\.]+)[\?]?([%-=&\w]*)\s*(HTTP/1\.[01])

  datatype Method = GET | POST | HEAD | PUT | DELETE

  datatype Version = HTTP10 | HTTP11

  const VERSION_LENGTH: nat := 8

  function MethodName(m: Method): (name: string)
    ensures |name| >= 3
  {
    match m
    case GET => "GET"
    case POST => "POST"
    case HEAD => "HEAD"
    case PUT => "PUT"
    case DELETE => "DELETE"
  }

  function VersionName(v: Version): (name: string)
    ensures |name| == VERSION_LENGTH
  {
    match v
    case HTTP10 => "HTTP/1.0"
    case HTTP11 => "HTTP/1.1"
  }

  function FindMethod(line: string): (r: Option<Method>)
    ensures r.Some? ==> MethodName(r.value) <= line
  {
    if "GET" <= line then Some(GET)
    else if "POST" <= line then Some(POST)
    else if "HEAD" <= line then Some(HEAD)
    else if "PUT" <= line then Some(PUT)
    else if "DELETE" <= line then Some(DELETE)
    else None
  }

  /** No method name starts another one. */
  lemma MethodIsUnique(line: string, m: Method)
    requires MethodName(m) <= line
    ensures FindMethod(line) == Some(m)
  {
    assert line[0] == MethodName(m)[0] && line[1] == MethodName(m)[1];
  }

  function FindVersion(tail: string): (r: Option<Version>)
    ensures r.Some? ==> tail == VersionName(r.value)
    ensures forall v :: tail == VersionName(v) ==> r == Some(v)
  {
    if tail == "HTTP/1.0" then Some(HTTP10)
    else if tail == "HTTP/1.1" then Some(HTTP11)
    else
      assert forall v :: VersionName(v) == "HTTP/1.0" || VersionName(v) == "HTTP/1.1";
      None
  }

  /** Where the path starts and ends, and where the query starts and ends. */
  datatype RequestCut = RequestCut(path: nat, pathEnd: nat, query: nat, queryEnd: nat)

  ghost predicate CutsRequestLine(line: string, m: Method, c: RequestCut, v: Version) {
    && |MethodName(m)| <= c.path < c.pathEnd <= c.query <= c.queryEnd <= |line| - VERSION_LENGTH
    && MethodName(m) <= line
    && All(line, |MethodName(m)|, c.path, IsSpace)
    && All(line, c.path, c.pathEnd, IsPathChar)
    && (c.query == c.pathEnd || (c.query == c.pathEnd + 1 && line[c.pathEnd] == '?'))
    && All(line, c.query, c.queryEnd, IsQueryChar)
    && All(line, c.queryEnd, |line| - VERSION_LENGTH, IsSpace)
    && line[|line| - VERSION_LENGTH..] == VersionName(v)
  }

  /** The cut of everything between the method and the version. */
  function CutTarget(text: string, start: nat): (r: Option<RequestCut>)
    requires start <= |text|
  {
    var path := Skip(text, start, IsSpace);
    var pathEnd := Skip(text, path, IsPathChar);
    var query := if pathEnd < |text| && text[pathEnd] == '?' then pathEnd + 1 else pathEnd;
    var queryEnd := Skip(text, query, IsQueryChar);
    if path == pathEnd || Skip(text, queryEnd, IsSpace) < |text| then None
    else Some(RequestCut(path, pathEnd, query, queryEnd))
  }

  function CutRequestLine(line: string): Option<(Method, RequestCut, Version)> {
    var m := FindMethod(line);
    if m.None? || |line| < |MethodName(m.value)| + VERSION_LENGTH then None
    else
      var end := |line| - VERSION_LENGTH;
      var v := FindVersion(line[end..]);
      var c := CutTarget(line[..end], |MethodName(m.value)|);
      if v.None? || c.None? then None else Some((m.value, c.value, v.value))
  }

  lemma RequestCutIsAllowed(line: string)
    requires CutRequestLine(line).Some?
    ensures var (m, c, v) := CutRequestLine(line).value; CutsRequestLine(line, m, c, v)
  {
    var (m, c, v) := CutRequestLine(line).value;
    var text := line[..|line| - VERSION_LENGTH];
    assert Skip(text, c.queryEnd, IsSpace) == |text|;
    assert forall i :: 0 <= i < |text| ==> text[i] == line[i];
  }

  /** Every allowed cut differs from the splitter's at most by a shorter path. */
  lemma RequestCutIsLargest(line: string, m: Method, c: RequestCut, v: Version)
    requires CutsRequestLine(line, m, c, v)
    ensures CutRequestLine(line).Some?
    ensures var (m', c', v') := CutRequestLine(line).value;
      m' == m && v' == v && c'.path == c.path && c.pathEnd <= c'.pathEnd && (c.pathEnd == c'.pathEnd ==> c' == c)
  {
    MethodIsUnique(line, m);
    CutTargetIsLargest(line[..|line| - VERSION_LENGTH], |MethodName(m)|, c);
  }

  lemma CutTargetIsLargest(text: string, start: nat, c: RequestCut)
    requires start <= c.path < c.pathEnd <= c.query <= c.queryEnd <= |text|
    requires All(text, start, c.path, IsSpace) && All(text, c.path, c.pathEnd, IsPathChar)
    requires c.query == c.pathEnd || (c.query == c.pathEnd + 1 && text[c.pathEnd] == '?')
    requires All(text, c.query, c.queryEnd, IsQueryChar) && All(text, c.queryEnd, |text|, IsSpace)
    ensures CutTarget(text, start).Some?
    ensures var c' := CutTarget(text, start).value;
      c'.path == c.path && c.pathEnd <= c'.pathEnd && (c.pathEnd == c'.pathEnd ==> c' == c)
  {
    assert IsPathChar(text[c.path]);
    SkipAtLeast(text, start, IsSpace, c.path);
    SkipAtLeast(text, c.path, IsPathChar, c.pathEnd);
    var pathEnd := Skip(text, c.path, IsPathChar);
    QueryIsFixed(text, c, pathEnd);
    SkipAtLeast(text, c.queryEnd, IsSpace, |text|);
  }

  /** However far the path reaches, the query ends in the same place. */
  lemma QueryIsFixed(text: string, c: RequestCut, pathEnd: nat)
    requires c.path < c.pathEnd <= c.query <= c.queryEnd <= |text| && c.pathEnd <= pathEnd <= |text|
    requires c.query == c.pathEnd || (c.query == c.pathEnd + 1 && text[c.pathEnd] == '?')
    requires All(text, c.query, c.queryEnd, IsQueryChar) && All(text, c.queryEnd, |text|, IsSpace)
    requires All(text, c.path, pathEnd, IsPathChar) && (pathEnd < |text| ==> !IsPathChar(text[pathEnd]))
    ensures var query := if pathEnd < |text| && text[pathEnd] == '?' then pathEnd + 1 else pathEnd;
      query <= |text| && Skip(text, query, IsQueryChar) == c.queryEnd && (pathEnd == c.pathEnd ==> query == c.query)
  {
    var query := if pathEnd < |text| && text[pathEnd] == '?' then pathEnd + 1 else pathEnd;
    assert c.queryEnd < |text| ==> IsSpace(text[c.queryEnd]);
    assert c.query < pathEnd ==> IsPathChar(text[c.query]);
    assert pathEnd <= c.queryEnd;
    SkipAtLeast(text, query, IsQueryChar, c.queryEnd);
  }

  /** The splitter reports a cut exactly when it is the allowed cut with the longest path. */
  lemma RequestCutIsGreedy(line: string, m: Method, c: RequestCut, v: Version)
    ensures CutRequestLine(line) == Some((m, c, v)) <==>
      && CutsRequestLine(line, m, c, v)
      && forall m', c', v' :: CutsRequestLine(line, m', c', v') ==> c'.pathEnd <= c.pathEnd
  {
    if CutRequestLine(line).Some? {
      RequestCutIsAllowed(line);
    }
    forall m', c', v' | CutsRequestLine(line, m', c', v')
      ensures CutRequestLine(line).Some?
      ensures var (m0, c0, v0) := CutRequestLine(line).value;
        m0 == m' && v0 == v' && c'.pathEnd <= c0.pathEnd && (c'.pathEnd == c0.pathEnd ==> c0 == c')
    {
      RequestCutIsLargest(line, m', c', v');
    }
  }

  datatype RequestLine = RequestLine(verb: Method, path: string, query: string, version: Version)

  function MatchRequestLine(line: string): Option<RequestLine> {
    match CutRequestLine(line)
    case None => None
    case Some((m, c, v)) =>
      if c.path <= c.pathEnd <= c.query <= c.queryEnd <= |line|
      then Some(RequestLine(m, line[c.path..c.pathEnd], line[c.query..c.queryEnd], v))
      else None
  }

  function Assemble(parts: RequestLine, space1: string, mark: string, space2: string): string {
    Target(parts, space1, mark) + space2 + VersionName(parts.version)
  }

  function Target(parts: RequestLine, space1: string, mark: string): string {
    MethodName(parts.verb) + space1 + parts.path + mark + parts.query
  }

  function AssembledCut(parts: RequestLine, space1: string, mark: string): RequestCut {
    var path := |MethodName(parts.verb)| + |space1|;
    RequestCut(path, path + |parts.path|, path + |parts.path| + |mark|, |Target(parts, space1, mark)|)
  }

  /** Every part is made of the characters its group allows. */
  ghost predicate Sound(parts: RequestLine, mark: string) {
    && parts.path != "" && All(parts.path, 0, |parts.path|, IsPathChar)
    && All(parts.query, 0, |parts.query|, IsQueryChar)
    && (mark == "?" || mark == "")
  }

  /** And the query could not be taken for more path. */
  ghost predicate WellFormed(parts: RequestLine, mark: string) {
    Sound(parts, mark) && (mark == "" && parts.query != "" ==> !IsPathChar(parts.query[0]))
  }

  /** Where the parts of an assembled line are. */
  lemma AssembledSlices(m: string, a: string, p: string, mark: string, q: string, b: string, v: string)
    ensures var line := m + a + p + mark + q + b + v;
      var i1 := |m|; var i2 := i1 + |a|; var i3 := i2 + |p|; var i4 := i3 + |mark|; var i5 := i4 + |q|;
      && |line| == i5 + |b| + |v|
      && m <= line && line[i1..i2] == a && line[i2..i3] == p && line[i3..i4] == mark && line[i4..i5] == q
      && line[i5..i5 + |b|] == b && line[i5 + |b|..] == v
  {
  }

  lemma AssembledLineIsCut(parts: RequestLine, space1: string, mark: string, space2: string)
    requires Sound(parts, mark)
    requires All(space1, 0, |space1|, IsSpace) && All(space2, 0, |space2|, IsSpace)
    ensures var line, c := Assemble(parts, space1, mark, space2), AssembledCut(parts, space1, mark);
      CutsRequestLine(line, parts.verb, c, parts.version)
  {
    var line := Assemble(parts, space1, mark, space2);
    var c := AssembledCut(parts, space1, mark);
    var m, v := MethodName(parts.verb), VersionName(parts.version);
    AssembledSlices(m, space1, parts.path, mark, parts.query, space2, v);
    FromPart(line, |m|, space1, IsSpace);
    FromPart(line, c.path, parts.path, IsPathChar);
    FromPart(line, c.query, parts.query, IsQueryChar);
    FromPart(line, c.queryEnd, space2, IsSpace);
    if mark == "?" {
      assert line[c.pathEnd] == line[c.pathEnd..c.query][0];
    }
  }

  lemma PathEndsAtMark(parts: RequestLine, space1: string, mark: string, space2: string)
    requires WellFormed(parts, mark) && All(space2, 0, |space2|, IsSpace)
    ensures var text, end := Target(parts, space1, mark) + space2, AssembledCut(parts, space1, mark).pathEnd;
      end < |text| ==> !IsPathChar(text[end])
  {
    var text := Target(parts, space1, mark) + space2;
    var end := AssembledCut(parts, space1, mark).pathEnd;
    if mark + parts.query == "" {
      assert end < |text| ==> text[end] == space2[0];
    }
  }

  lemma AssembledParts(parts: RequestLine, space1: string, mark: string, space2: string)
    ensures var line, c := Assemble(parts, space1, mark, space2), AssembledCut(parts, space1, mark);
      && line[c.path..c.pathEnd] == parts.path && line[c.query..c.queryEnd] == parts.query
      && line[..|line| - VERSION_LENGTH] == Target(parts, space1, mark) + space2
  {
    var m, v := MethodName(parts.verb), VersionName(parts.version);
    AssembledSlices(m, space1, parts.path, mark, parts.query, space2, v);
  }

  /** A request line put together from well-formed parts is read back as those parts, whatever
      white space (even none) separates them. */
  lemma RequestLineReadsBack(parts: RequestLine, space1: string, mark: string, space2: string)
    requires WellFormed(parts, mark)
    requires All(space1, 0, |space1|, IsSpace) && All(space2, 0, |space2|, IsSpace)
    ensures MatchRequestLine(Assemble(parts, space1, mark, space2)) == Some(parts)
  {
    var line := Assemble(parts, space1, mark, space2);
    var c := AssembledCut(parts, space1, mark);
    AssembledLineIsCut(parts, space1, mark, space2);
    RequestCutIsLargest(line, parts.verb, c, parts.version);
    var text := line[..|line| - VERSION_LENGTH];
    PathEndsAtMark(parts, space1, mark, space2);
    assert All(text, c.path, c.pathEnd, IsPathChar);
    SkipAtLeast(text, c.path, IsPathChar, c.pathEnd);
    AssembledParts(parts, space1, mark, space2);
  }

  lemma MatchIsSound(line: string)
    requires MatchRequestLine(line).Some?
    ensures Sound(MatchRequestLine(line).value, "")
  {
    RequestCutIsAllowed(line);
  }

  /** Without its mark, a query that starts like a path is taken for more path. */
  lemma AmbiguousQueryIsMisread(parts: RequestLine, space1: string, space2: string)
    requires Sound(parts, "") && parts.query != "" && IsPathChar(parts.query[0])
    requires All(space1, 0, |space1|, IsSpace) && All(space2, 0, |space2|, IsSpace)
    ensures MatchRequestLine(Assemble(parts, space1, "", space2)) != Some(parts)
  {
    var line := Assemble(parts, space1, "", space2);
    var c := AssembledCut(parts, space1, "");
    AssembledLineIsCut(parts, space1, "", space2);
    AssembledParts(parts, space1, "", space2);
    assert line[c.pathEnd] == line[c.query..c.queryEnd][0];
    PathTakesMore(line, parts.verb, c, parts.version);
  }

  lemma PathTakesMore(line: string, m: Method, c: RequestCut, v: Version)
    requires CutsRequestLine(line, m, c, v) && c.query == c.pathEnd < c.queryEnd && IsPathChar(line[c.pathEnd])
    ensures MatchRequestLine(line).Some? && |MatchRequestLine(line).value.path| > c.pathEnd - c.path
  {
    RequestCutIsLargest(line, m, c.(pathEnd := c.pathEnd + 1, query := c.query + 1), v);
    RequestCutIsAllowed(line);
  }

  /** A request line put together from parts is read back as those parts exactly when they are
      well formed. */
  lemma ReadsBackIffWellFormed(parts: RequestLine, space1: string, mark: string, space2: string)
    requires mark == "?" || mark == ""
    requires All(space1, 0, |space1|, IsSpace) && All(space2, 0, |space2|, IsSpace)
    ensures MatchRequestLine(Assemble(parts, space1, mark, space2)) == Some(parts) <==> WellFormed(parts, mark)
  {
    if WellFormed(parts, mark) {
      RequestLineReadsBack(parts, space1, mark, space2);
    } else if Sound(parts, mark) {
      AmbiguousQueryIsMisread(parts, space1, space2);
    } else if MatchRequestLine(Assemble(parts, space1, mark, space2)) == Some(parts) {
      MatchIsSound(Assemble(parts, space1, mark, space2));
    }
  }

  lemma FromPart(line: string, at: nat, part: string, p: char -> bool)
    requires at + |part| <= |line| && line[at..at + |part|] == part && All(part, 0, |part|, p)
    ensures All(line, at, at + |part|, p)
  {
    assert forall i :: at <= i < at + |part| ==> line[i] == part[i - at];
  }
}
