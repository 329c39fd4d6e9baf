/** The rolling log file of src/logger/LogFile.cc. Clock readings are microseconds. */
module LogFileProtocol {
  import opened Flattening
  import opened Sequences

  const MICROSECONDS_PER_SECOND: int := 1_000_000

  /** A file: when it was opened, what was appended to it, and when. */
  datatype File = File(openedAt: int, lines: seq<string>, times: seq<int>) {
    function Bytes(): string { Flatten(lines) }

    function WrittenBytes(): nat { |Bytes()| }

    function Append(line: string, now: int): File {
      File(openedAt, lines + [line], times + [now])
    }
  }

  datatype Config = Config(rollsize: nat, flushInterval: int, checkEveryNAppend: int, roundByDay: int -> int)

  datatype State = State(
    files: seq<File>,          // in creation order; the last one is file_
    appendCount: int,
    lastRoll: int,
    lastFlush: int,
    currentPeriod: int)

  datatype Event =
    | Append(line: string, now: int, later: int)   // the first and, if taken, the second clock reading
    | RollFile(now: int)

  /** At most one file a second is created. */
  function RollFileUnlocked(c: Config, s: State, now: int): State {
    if now - s.lastRoll < MICROSECONDS_PER_SECOND then s
    else s.(lastRoll := now, lastFlush := now, currentPeriod := c.roundByDay(now),
            files := s.files + [File(now, [], [])])
  }

  /** The periodic check: roll over midnight, or flush. */
  function Check(c: Config, s: State, now: int, later: int): State {
    if s.currentPeriod < c.roundByDay(now) then
      RollFileUnlocked(c, s, later).(currentPeriod := c.roundByDay(now))
    else if now - s.lastFlush >= c.flushInterval * MICROSECONDS_PER_SECOND then
      s.(lastFlush := now)
    else s
  }

  function BeforeWrite(c: Config, s: State, line: string, now: int, later: int): (r: State)
    requires s.files != []
    ensures r.files != []
  {
    if s.files[|s.files| - 1].WrittenBytes() + |line| > c.rollsize then
      RollFileUnlocked(c, s, now).(appendCount := 0)
    else if s.appendCount >= c.checkEveryNAppend then
      Check(c, s.(appendCount := 0), now, later)
    else s
  }

  function AppendUnlocked(c: Config, s: State, line: string, now: int, later: int): State
    requires s.files != []
  {
    Write(BeforeWrite(c, s, line, now, later), line, now)
  }

  function Write(s: State, line: string, now: int): State
    requires s.files != []
  {
    var last := |s.files| - 1;
    s.(files := s.files[last := s.files[last].Append(line, now)], appendCount := s.appendCount + 1)
  }

  /** Every clock reading comes after the last roll (line 84), readings of one call in order. */
  predicate Enabled(s: State, e: Event) {
    s.files != [] &&
    match e
    case Append(_, now, later) => s.lastRoll < now <= later
    case RollFile(now) => s.lastRoll < now
  }

  function Apply(c: Config, s: State, e: Event): State
    requires Enabled(s, e)
  {
    match e
    case Append(line, now, later) => if line == "" then s else AppendUnlocked(c, s, line, now, later)
    case RollFile(now) => RollFileUnlocked(c, s, now)
  }

  /** The constructor, at a time when the first roll cannot be refused. */
  function Init(c: Config, now: int): State {
    RollFileUnlocked(c, State([], 0, 0, 0, 0), now)
  }

  ghost predicate Reaches(c: Config, s: State, es: seq<Event>, s': State)
    decreases |es|
  {
    if es == [] then s == s'
    else Enabled(s, es[0]) && Reaches(c, Apply(c, s, es[0]), es[1..], s')
  }

  function AllBytes(files: seq<File>): string {
    if files == [] then "" else AllBytes(files[..|files| - 1]) + files[|files| - 1].Bytes()
  }

  function Lines(es: seq<Event>): seq<string> {
    if es == [] then []
    else (if es[0].Append? then [es[0].line] else []) + Lines(es[1..])
  }

  /** The k-th write leaves the file over rollsize_ only if it is the first one, or made within
      a second of the opening. */
  ghost predicate WriteJustified(f: File, k: nat, rollsize: nat)
    requires k < |f.lines| && k < |f.times|
  {
    |Flatten(f.lines[..k + 1])| > rollsize ==> k == 0 || f.times[k] - f.openedAt < MICROSECONDS_PER_SECOND
  }

  ghost predicate SizeJustified(f: File, rollsize: nat) {
    && |f.lines| == |f.times|
    && forall k :: 0 <= k < |f.lines| ==> WriteJustified(f, k, rollsize)
  }

  ghost predicate FilesInv(files: seq<File>, lastRoll: int, rollsize: nat) {
    && files != []
    && lastRoll == files[|files| - 1].openedAt
    && (forall i :: 0 <= i < |files| ==> SizeJustified(files[i], rollsize))
    && (forall i, j :: 0 <= i < j < |files| ==>
          files[i].openedAt + MICROSECONDS_PER_SECOND <= files[j].openedAt)
  }

  ghost predicate Inv(c: Config, s: State) {
    FilesInv(s.files, s.lastRoll, c.rollsize)
  }

  lemma RollKeepsInv(c: Config, s: State, now: int)
    requires Inv(c, s)
    ensures Inv(c, RollFileUnlocked(c, s, now))
    ensures AllBytes(RollFileUnlocked(c, s, now).files) == AllBytes(s.files)
  {
    OpenKeepsFiles(s.files, now);
  }

  /** A new, empty file behind the others. */
  lemma OpenKeepsFiles(files: seq<File>, now: int)
    ensures var more := files + [File(now, [], [])];
      AllBytes(more) == AllBytes(files) && (forall i :: 0 <= i < |files| ==> more[i] == files[i])
  {
    assert (files + [File(now, [], [])])[..|files|] == files;
  }

  lemma AppendJustified(f: File, line: string, now: int, rollsize: nat)
    requires SizeJustified(f, rollsize)
    requires f.WrittenBytes() + |line| > rollsize ==> f.lines == [] || now - f.openedAt < MICROSECONDS_PER_SECOND
    ensures SizeJustified(f.Append(line, now), rollsize)
    ensures f.Append(line, now).Bytes() == f.Bytes() + line
  {
    var g := f.Append(line, now);
    FlattenSnoc(f.lines, line);
    forall k | 0 <= k < |g.lines|
      ensures WriteJustified(g, k, rollsize)
    {
      if k < |f.lines| {
        assert g.lines[..k + 1] == f.lines[..k + 1];
        assert WriteJustified(f, k, rollsize);
      } else {
        assert g.lines[..k + 1] == g.lines;
      }
    }
  }

  lemma WriteKeepsInv(c: Config, s: State, line: string, now: int)
    requires Inv(c, s)
    requires var f := s.files[|s.files| - 1];
      f.WrittenBytes() + |line| > c.rollsize ==> f.lines == [] || now - f.openedAt < MICROSECONDS_PER_SECOND
    ensures Inv(c, Write(s, line, now)) && AllBytes(Write(s, line, now).files) == AllBytes(s.files) + line
  {
    var last := |s.files| - 1;
    AppendJustified(s.files[last], line, now, c.rollsize);
    assert Write(s, line, now).files[..last] == s.files[..last];
  }

  /** The last file may be appended to whatever its size: it is empty, or less than a second old. */
  predicate Free(s: State, now: int)
    requires s.files != []
  {
    var f := s.files[|s.files| - 1];
    f.lines == [] || now - f.openedAt < MICROSECONDS_PER_SECOND
  }

  lemma RollFrees(c: Config, s: State, now: int)
    requires Inv(c, s)
    ensures RollFileUnlocked(c, s, now).files != [] && Free(RollFileUnlocked(c, s, now), now)
    ensures RollFileUnlocked(c, s, now) == s || RollFileUnlocked(c, s, now).files[|s.files|].lines == []
  {
  }

  lemma CheckKeepsInv(c: Config, s: State, now: int, later: int)
    requires Inv(c, s)
    ensures var r := Check(c, s, now, later);
      && Inv(c, r) && AllBytes(r.files) == AllBytes(s.files)
      && (r.files == s.files || r.files[|r.files| - 1].lines == [])
  {
    if s.currentPeriod < c.roundByDay(now) {
      RollKeepsInv(c, s, later);
      RollFrees(c, s, later);
    }
  }

  lemma BeforeWriteKeepsInv(c: Config, s: State, line: string, now: int, later: int)
    requires Inv(c, s) && s.lastRoll < now <= later
    ensures var r := BeforeWrite(c, s, line, now, later);
      && Inv(c, r) && AllBytes(r.files) == AllBytes(s.files)
      && (r.files[|r.files| - 1].WrittenBytes() + |line| > c.rollsize ==> Free(r, now))
  {
    if s.files[|s.files| - 1].WrittenBytes() + |line| > c.rollsize {
      RollKeepsInv(c, s, now);
      RollFrees(c, s, now);
    } else if s.appendCount >= c.checkEveryNAppend {
      CheckKeepsInv(c, s.(appendCount := 0), now, later);
    } else {
      assert BeforeWrite(c, s, line, now, later) == s;
    }
  }

  lemma StepKeepsInv(c: Config, s: State, e: Event)
    requires Inv(c, s) && Enabled(s, e)
    ensures Inv(c, Apply(c, s, e))
    ensures AllBytes(Apply(c, s, e).files) == AllBytes(s.files) + if e.Append? then e.line else ""
  {
    match e
    case RollFile(now) =>
      RollKeepsInv(c, s, now);
    case Append(line, now, later) =>
      if line != "" {
        BeforeWriteKeepsInv(c, s, line, now, later);
        WriteKeepsInv(c, BeforeWrite(c, s, line, now, later), line, now);
      }
  }

  /** In every run the files, in creation order, concatenate to everything appended. */
  lemma {:induction false} BytesAreConserved(c: Config, s: State, es: seq<Event>, s': State)
    requires Inv(c, s) && Reaches(c, s, es, s')
    ensures Inv(c, s') && AllBytes(s'.files) == AllBytes(s.files) + Flatten(Lines(es))
    decreases |es|
  {
    if es != [] {
      var s1 := Apply(c, s, es[0]);
      StepKeepsInv(c, s, es[0]);
      BytesAreConserved(c, s1, es[1..], s');
      LinesCons(es);
      Regroup(AllBytes(s.files), if es[0].Append? then es[0].line else "", Flatten(Lines(es[1..])));
    }
  }

  lemma LinesCons(es: seq<Event>)
    requires es != []
    ensures Flatten(Lines(es)) == (if es[0].Append? then es[0].line else "") + Flatten(Lines(es[1..]))
  {
    var rest := Lines(es[1..]);
    if es[0].Append? {
      FlattenCons(es[0].line, rest);
    } else {
      assert Lines(es) == rest;
    }
  }

  lemma InitIsEmpty(c: Config, start: int)
    requires MICROSECONDS_PER_SECOND <= start
    ensures AllBytes(Init(c, start).files) == ""
  {
    assert Init(c, start).files == [File(start, [], [])];
  }

  /** The three promises of the file over a whole run: nothing is lost or reordered, successive
      rolls fall in strictly increasing whole seconds, and a file passes rollsize_ only through
      one over-long line or within a second of its opening. */
  lemma RunsKeepThePolicy(c: Config, start: int, es: seq<Event>, s: State)
    requires MICROSECONDS_PER_SECOND <= start && Reaches(c, Init(c, start), es, s)
    ensures AllBytes(s.files) == Flatten(Lines(es))
    ensures forall i, j :: 0 <= i < j < |s.files| ==>
              s.files[i].openedAt / MICROSECONDS_PER_SECOND < s.files[j].openedAt / MICROSECONDS_PER_SECOND
    ensures forall i :: 0 <= i < |s.files| ==> SizeJustified(s.files[i], c.rollsize)
  {
    InitIsEmpty(c, start);
    BytesAreConserved(c, Init(c, start), es, s);
  }

  // When a new file is opened.

  /** Days follow the clock. */
  ghost predicate DaysInOrder(c: Config) {
    forall a, b :: a <= b ==> c.roundByDay(a) <= c.roundByDay(b)
  }

  function LastFile(s: State): File
    requires s.files != []
  {
    s.files[|s.files| - 1]
  }

  /** The day of a file. One that the periodic check has opened belongs to the reading of the clock
      that the check went by, which is also that of its first line, and not to the one that dates
      it: midnight may fall between the two. */
  function DayOf(c: Config, f: File): int {
    c.roundByDay(if f.times != [] && f.times[0] < f.openedAt then f.times[0] else f.openedAt)
  }

  /** The period is the day of the file, or has been moved on by a check within a second of its
      opening, when no new file could be opened. */
  ghost predicate PeriodInv(c: Config, s: State) {
    && s.appendCount >= 0 && s.files != []
    && DayOf(c, LastFile(s)) <= s.currentPeriod <= c.roundByDay(s.lastRoll + MICROSECONDS_PER_SECOND - 1)
  }

  lemma PeriodStep(c: Config, s: State, e: Event)
    requires DaysInOrder(c) && Inv(c, s) && PeriodInv(c, s) && Enabled(s, e)
    ensures PeriodInv(c, Apply(c, s, e))
  {
    match e
    case Append(line, now, later) =>
      if line != "" {
        BeforeWriteKeepsPeriod(c, s, line, now, later);
        WriteKeepsPeriod(c, BeforeWrite(c, s, line, now, later), line, now);
      }
    case RollFile(now) => WithinTheSecond(c, now);
  }

  lemma WithinTheSecond(c: Config, now: int)
    requires DaysInOrder(c)
    ensures c.roundByDay(now) <= c.roundByDay(now + MICROSECONDS_PER_SECOND - 1)
  {
  }

  /** The period before the line is written: that of the file it will go to. */
  ghost predicate PeriodAt(c: Config, s: State, now: int) {
    && s.appendCount >= 0 && s.files != []
    && DayOf(c, if LastFile(s).lines == [] then LastFile(s).Append("", now) else LastFile(s)) <= s.currentPeriod
    && s.currentPeriod <= c.roundByDay(s.lastRoll + MICROSECONDS_PER_SECOND - 1)
  }

  lemma BeforeWriteKeepsPeriod(c: Config, s: State, line: string, now: int, later: int)
    requires DaysInOrder(c) && Inv(c, s) && PeriodInv(c, s) && s.lastRoll < now <= later
    ensures PeriodAt(c, BeforeWrite(c, s, line, now, later), now)
  {
    var r := s.lastRoll + MICROSECONDS_PER_SECOND - 1;
    assert now <= r ==> c.roundByDay(now) <= c.roundByDay(r);
    WithinTheSecond(c, now);
    assert c.roundByDay(now) <= c.roundByDay(later + MICROSECONDS_PER_SECOND - 1);
  }

  lemma WriteKeepsPeriod(c: Config, s: State, line: string, now: int)
    requires Inv(c, s) && PeriodAt(c, s, now)
    ensures PeriodInv(c, Write(s, line, now))
  {
  }

  lemma {:induction false} PeriodRun(c: Config, s: State, es: seq<Event>, s': State)
    requires DaysInOrder(c) && Inv(c, s) && PeriodInv(c, s) && Reaches(c, s, es, s')
    ensures Inv(c, s') && PeriodInv(c, s')
    decreases |es|
  {
    if es != [] {
      PeriodStep(c, s, es[0]);
      StepKeepsInv(c, s, es[0]);
      PeriodRun(c, Apply(c, s, es[0]), es[1..], s');
    }
  }

  /** A file is left only for a reason: somebody asks for it, or the next line does not fit, or a new
      day has begun since the file was opened; and not within a second of its opening. After that
      second the first two reasons are enough. */
  lemma FilesAreLeftForAReason(c: Config, s: State, e: Event)
    requires DaysInOrder(c) && Inv(c, s) && PeriodInv(c, s) && Enabled(s, e)
    ensures |s.files| <= |Apply(c, s, e).files| <= |s.files| + 1
    ensures |Apply(c, s, e).files| > |s.files| ==>
      var f, now := LastFile(s), if e.Append? then e.later else e.now;
      && now - f.openedAt >= MICROSECONDS_PER_SECOND
      && (e.Append? ==>
            f.WrittenBytes() + |e.line| > c.rollsize || c.roundByDay(e.now) > DayOf(c, f))
    ensures e.RollFile? || (e.line != "" && LastFile(s).WrittenBytes() + |e.line| > c.rollsize) ==>
      (|Apply(c, s, e).files| > |s.files| <==> e.now - LastFile(s).openedAt >= MICROSECONDS_PER_SECOND)
  {
  }

  /** Lines come in, all of them on a later day than the file's, a second's grace included. */
  ghost predicate OnLaterDay(c: Config, s: State, es: seq<Event>) {
    forall e <- es ::
      e.Append? && e.line != "" && c.roundByDay(e.now) > c.roundByDay(s.lastRoll + MICROSECONDS_PER_SECOND - 1)
  }

  lemma LaterDayStep(c: Config, s: State, e: Event)
    requires DaysInOrder(c) && Inv(c, s) && PeriodInv(c, s) && Enabled(s, e) && OnLaterDay(c, s, [e])
    ensures var s' := Apply(c, s, e);
      |s'.files| > |s.files| ||
      (s'.lastRoll == s.lastRoll && s'.appendCount == s.appendCount + 1 && s.appendCount < c.checkEveryNAppend)
  {
    assert e in [e];
    assert e.now > s.lastRoll + MICROSECONDS_PER_SECOND - 1;
  }

  /** When the day has changed, a new file is opened after at most so many lines as the periodic check
      is apart, and one. */
  lemma {:induction false} NewDayOpensFile(c: Config, s: State, es: seq<Event>, s': State)
    requires DaysInOrder(c) && Inv(c, s) && PeriodInv(c, s) && Reaches(c, s, es, s')
    requires OnLaterDay(c, s, es) && |es| + s.appendCount > c.checkEveryNAppend && es != []
    ensures |s'.files| > |s.files|
    decreases |es|
  {
    assert es[0] in es;
    var s1 := Apply(c, s, es[0]);
    LaterDayStep(c, s, es[0]);
    PeriodStep(c, s, es[0]);
    StepKeepsInv(c, s, es[0]);
    if |s1.files| > |s.files| {
      FilesStay(c, s1, es[1..], s');
    } else {
      NewDayOpensFile(c, s1, es[1..], s');
    }
  }

  lemma {:induction false} FilesStay(c: Config, s: State, es: seq<Event>, s': State)
    requires DaysInOrder(c) && Inv(c, s) && PeriodInv(c, s) && Reaches(c, s, es, s')
    ensures |s.files| <= |s'.files|
    decreases |es|
  {
    if es != [] {
      FilesAreLeftForAReason(c, s, es[0]);
      PeriodStep(c, s, es[0]);
      StepKeepsInv(c, s, es[0]);
      FilesStay(c, Apply(c, s, es[0]), es[1..], s');
    }
  }

  /** The same for whole runs: from any point, a new day's lines end up in a new file. */
  lemma MidnightRolls(c: Config, start: int, before: seq<Event>, mid: State, es: seq<Event>, s: State)
    requires DaysInOrder(c) && MICROSECONDS_PER_SECOND <= start && Reaches(c, Init(c, start), before, mid)
    requires Reaches(c, mid, es, s) && OnLaterDay(c, mid, es) && |es| > c.checkEveryNAppend && es != []
    ensures |s.files| > |mid.files|
  {
    var s0 := Init(c, start);
    assert s0.files == [File(start, [], [])];
    PeriodRun(c, s0, before, mid);
    NewDayOpensFile(c, mid, es, s);
  }

  lemma FittingStep(c: Config, s: State, e: Event)
    requires Enabled(s, e) && e.Append? && c.roundByDay(e.now) <= s.currentPeriod
    requires LastFile(s).WrittenBytes() + |e.line| <= c.rollsize
    ensures var s' := Apply(c, s, e);
      && |s'.files| == |s.files| && s'.currentPeriod == s.currentPeriod
      && LastFile(s').WrittenBytes() == LastFile(s).WrittenBytes() + |e.line|
  {
    FlattenSnoc(LastFile(s).lines, e.line);
  }

  lemma {:induction false} DayGoesOn(c: Config, s: State, es: seq<Event>, s': State)
    requires s.files != [] && Reaches(c, s, es, s')
    requires forall e <- es :: e.Append? && c.roundByDay(e.now) <= s.currentPeriod
    requires LastFile(s).WrittenBytes() + |Flatten(Lines(es))| <= c.rollsize
    ensures |s'.files| == |s.files|
    decreases |es|
  {
    if es != [] {
      assert es[0] in es;
      LinesCons(es);
      FittingStep(c, s, es[0]);
      DayGoesOn(c, Apply(c, s, es[0]), es[1..], s');
    }
  }

  /** The second's grace is needed: a periodic check that finds a new day within a second of the last
      roll opens no file, and takes the day for done. None is opened then for as long as the day
      lasts and the lines fit. */
  lemma MissedMidnight(c: Config, s: State, e: Event, es: seq<Event>, s': State)
    requires Inv(c, s) && Enabled(s, e) && e.Append? && e.line != ""
    requires s.appendCount >= c.checkEveryNAppend && s.currentPeriod < c.roundByDay(e.now)
    requires e.later - s.lastRoll < MICROSECONDS_PER_SECOND
    requires Reaches(c, Apply(c, s, e), es, s')
    requires forall x <- es :: x.Append? && c.roundByDay(x.now) <= c.roundByDay(e.now)
    requires LastFile(s).WrittenBytes() + |e.line| + |Flatten(Lines(es))| <= c.rollsize
    ensures |s'.files| == |s.files|
  {
    FlattenSnoc(LastFile(s).lines, e.line);
    DayGoesOn(c, Apply(c, s, e), es, s');
  }

  // Flushing.

  /** A line is being appended to the file of the day, and fits. */
  ghost predicate GoesOn(c: Config, s: State, es: seq<Event>)
    requires s.files != []
  {
    && (forall e <- es :: e.Append? && e.line != "" && c.roundByDay(e.now) <= s.currentPeriod)
    && LastFile(s).WrittenBytes() + |Flatten(Lines(es))| <= c.rollsize
  }

  lemma GoingOn(c: Config, s: State, es: seq<Event>)
    requires s.files != [] && GoesOn(c, s, es) && es != [] && Enabled(s, es[0])
    ensures Apply(c, s, es[0]).files != [] && GoesOn(c, Apply(c, s, es[0]), es[1..])
  {
    assert es[0] in es;
    LinesCons(es);
    FittingStep(c, s, es[0]);
  }

  /** As long as no file is opened, flushes are at least the interval apart; and every periodic check
      leaves a last flush that is less than the interval ago. */
  lemma FlushStep(c: Config, s: State, e: Event)
    requires Enabled(s, e) && GoesOn(c, s, [e]) && c.flushInterval > 0
    ensures var s', interval := Apply(c, s, e), c.flushInterval * MICROSECONDS_PER_SECOND;
      && (s'.lastFlush == s.lastFlush || s.lastFlush + interval <= s'.lastFlush == e.now)
      && (if s.appendCount >= c.checkEveryNAppend then e.now - s'.lastFlush < interval
          else s'.appendCount == s.appendCount + 1)
  {
    assert e in [e];
    assert [e][1..] == [] && Lines([e]) == [e.line] + [] == [] + [e.line];
    FlattenSnoc([], e.line);
  }

  lemma {:induction false} LaterFlush(c: Config, s: State, es: seq<Event>, s': State)
    requires s.files != [] && Reaches(c, s, es, s') && GoesOn(c, s, es) && c.flushInterval > 0
    ensures s.lastFlush <= s'.lastFlush
    decreases |es|
  {
    if es != [] {
      HeadGoesOn(c, s, es);
      FlushStep(c, s, es[0]);
      GoingOn(c, s, es);
      LaterFlush(c, Apply(c, s, es[0]), es[1..], s');
    }
  }

  lemma HeadGoesOn(c: Config, s: State, es: seq<Event>)
    requires s.files != [] && GoesOn(c, s, es) && es != []
    ensures GoesOn(c, s, [es[0]])
  {
    assert es[0] in es;
    LinesCons(es);
    LinesCons([es[0]]);
    assert Lines([es[0]][1..]) == [] && Flatten([]) == "";
  }

  /** When more lines have gone into a file than the periodic check is apart, the last flush is less
      than the interval before one of them. */
  lemma {:induction false} FlushedInTime(c: Config, s: State, es: seq<Event>, s': State)
    requires s.files != [] && Reaches(c, s, es, s') && GoesOn(c, s, es) && c.flushInterval > 0
    requires es != [] && |es| + s.appendCount > c.checkEveryNAppend
    ensures exists e <- es :: e.now - s'.lastFlush < c.flushInterval * MICROSECONDS_PER_SECOND
    decreases |es|
  {
    HeadGoesOn(c, s, es);
    FlushStep(c, s, es[0]);
    GoingOn(c, s, es);
    assert es[0] in es;
    if s.appendCount >= c.checkEveryNAppend {
      LaterFlush(c, Apply(c, s, es[0]), es[1..], s');
    } else {
      FlushedInTime(c, Apply(c, s, es[0]), es[1..], s');
    }
  }
}

/** The file object. Its clock readings are parameters; writes to the disk always complete. */
module LogFiles {
  import P = LogFileProtocol

  class LogFile {
    const config: P.Config
    var file: P.File
    ghost var closed: seq<P.File>
    var appendCount: int
    var lastRoll: int
    var lastFlush: int
    var currentPeriod: int

    ghost function Model(): P.State
      reads this
    {
      P.State(closed + [file], appendCount, lastRoll, lastFlush, currentPeriod)
    }

    ghost predicate Valid()
      reads this
    {
      P.Inv(config, Model())
    }

    constructor (config: P.Config, now: int)
      requires P.MICROSECONDS_PER_SECOND <= now
      ensures Valid() && this.config == config && Model() == P.Init(config, now)
      ensures P.AllBytes(Model().files) == ""
    {
      this.config := config;
      file, closed := P.File(now, [], []), [];
      appendCount, lastRoll, lastFlush, currentPeriod := 0, now, now, config.roundByDay(now);
      new;
      P.RunsKeepThePolicy(config, now, [], Model());
    }

    method Append(line: string, now: int, later: int)
      requires Valid() && lastRoll < now <= later
      modifies this
      ensures Valid() && Model() == P.Apply(config, old(Model()), P.Append(line, now, later))
      ensures P.AllBytes(Model().files) == old(P.AllBytes(Model().files)) + line
    {
      P.StepKeepsInv(config, Model(), P.Append(line, now, later));
      if line == "" { return; }
      AppendUnlocked(line, now, later);
    }

    method AppendUnlocked(line: string, now: int, later: int)
      modifies this
      ensures Model() == P.AppendUnlocked(config, old(Model()), line, now, later)
    {
      if file.WrittenBytes() + |line| > config.rollsize {
        RollFileUnlocked(now);
        appendCount := 0;
      } else if appendCount >= config.checkEveryNAppend {
        appendCount := 0;
        var startOfToday := config.roundByDay(now);
        if currentPeriod < startOfToday {
          RollFileUnlocked(later);
          currentPeriod := startOfToday;
        } else if now - lastFlush >= config.flushInterval * P.MICROSECONDS_PER_SECOND {
          lastFlush := now;
        }
      }
      ghost var before := closed + [file];
      file := file.Append(line, now);
      assert closed + [file] == before[|before| - 1 := file];
      appendCount := appendCount + 1;
    }

    method RollFile(now: int)
      requires Valid() && lastRoll < now
      modifies this
      ensures Valid() && Model() == P.Apply(config, old(Model()), P.RollFile(now))
      ensures P.AllBytes(Model().files) == old(P.AllBytes(Model().files))
    {
      P.StepKeepsInv(config, Model(), P.RollFile(now));
      RollFileUnlocked(now);
    }

    method RollFileUnlocked(now: int)
      modifies this
      ensures Model() == P.RollFileUnlocked(config, old(Model()), now)
    {
      if now - lastRoll < P.MICROSECONDS_PER_SECOND { return; }
      lastRoll, lastFlush, currentPeriod := now, now, config.roundByDay(now);
      closed := closed + [file];
      file := P.File(now, [], []);
    }
  }
}
