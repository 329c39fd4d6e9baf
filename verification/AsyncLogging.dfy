/** The double-buffered logger of src/logger/AsyncLogging.cc. Front-end threads append under the
    lock; one back-end thread swaps the full buffers out, drops, writes and recycles them.
    Buffers are owned by exactly one pointer, so a pointer is an optional value; the lines in a
    buffer are recorded beside its bytes, which are their concatenation. */
module AsyncLoggingProtocol {
  import opened Options
  import opened Flattening
  import opened Sequences

  const MAX_BATCH: nat := 16
  const KEPT: nat := 2

  datatype FixedBuffer = FixedBuffer(lines: seq<string>) {
    function Bytes(): string { Flatten(lines) }

    /** Append succeeds only if some room is left after it. */
    function Append(capacity: nat, line: string): FixedBuffer {
      if capacity - |Bytes()| > |line| then FixedBuffer(lines + [line]) else this
    }
  }

  type BufferPtr = Option<FixedBuffer>

  const FRESH: BufferPtr := Some(FixedBuffer([]))

  datatype Fate = Written(line: string) | Dropped(line: string)

  /** Where the back end is: about to take the lock, parked in WaitForSeconds, just after the
      critical section, or with the first `done` buffers of its batch written. */
  datatype Phase = Ready | Waiting | Swapped | Writing(done: nat)

  datatype State = State(
    capacity: nat,
    buffers: seq<BufferPtr>,
    current: BufferPtr,
    next: BufferPtr,
    newBuffer1: BufferPtr,
    newBuffer2: BufferPtr,
    batch: seq<BufferPtr>,
    phase: Phase,
    cut: seq<string>,          // the lines dropped from this round's batch
    journal: seq<Fate>)        // what became of every line that has left the buffers, in order

  datatype Event =
    | Append(line: string)
    | Enter                    // the lock is free: park if there is nothing, else swap
    | Wake                     // notified, timed out or woken spuriously: swap anyway
    | Drop
    | Write
    | Recycle

  function Init(capacity: nat): State {
    State(capacity, [], FRESH, FRESH, FRESH, FRESH, [], Ready, [], [])
  }

  predicate Enabled(s: State, e: Event) {
    match e
    case Append(_) => true
    case Enter => s.phase == Ready
    case Wake => s.phase == Waiting
    case Drop => s.phase == Swapped
    case Write => s.phase.Writing? && s.phase.done < |s.batch|
    case Recycle => s.phase.Writing? && s.phase.done == |s.batch|
  }

  function AppendLine(s: State, line: string): Option<State> {
    if s.current.None? then None
    else if s.capacity - |s.current.value.Bytes()| > |line| then
      Some(s.(current := Some(s.current.value.Append(s.capacity, line))))
    else
      Some(s.(buffers := s.buffers + [s.current], next := None,
              current := Some(Replacement(s).Append(s.capacity, line))))
  }

  /** The reserve buffer, or a newly allocated one. */
  function Replacement(s: State): FixedBuffer {
    if s.next.Some? then s.next.value else FRESH.value
  }

  /** The critical section of the back end, all moves included. */
  function Swap(s: State): State {
    s.(buffers := s.batch, batch := s.buffers + [s.current],
       current := s.newBuffer1, newBuffer1 := None,
       next := if s.next.None? then s.newBuffer2 else s.next,
       newBuffer2 := if s.next.None? then None else s.newBuffer2,
       phase := Swapped)
  }

  function DropExcess(s: State): State {
    if |s.batch| > MAX_BATCH then
      s.(batch := s.batch[..KEPT], cut := Lines(s.batch[KEPT..]), phase := Writing(0))
    else s.(phase := Writing(0))
  }

  function WriteOne(s: State): Option<State>
    requires Enabled(s, Write)
  {
    var b := s.batch[s.phase.done];
    if b.None? then None
    else Some(s.(journal := s.journal + Mark(b.value.lines, true), phase := Writing(s.phase.done + 1)))
  }

  /** back(), pop_back() and Reset(); None when the vector is empty or its last pointer is null. */
  function PopAndReset(v: seq<BufferPtr>): Option<(seq<BufferPtr>, BufferPtr)> {
    if v == [] || v[|v| - 1].None? then None
    else Some((v[..|v| - 1], FRESH))
  }

  function RecycleBuffers(s: State): Option<State> {
    var kept := if |s.batch| > KEPT then s.batch[..KEPT] else s.batch;
    var first := PopAndReset(kept);
    if first.None? then None
    else
      var second := PopAndReset(first.value.0);
      if s.newBuffer2.None? && second.None? then None
      else Some(s.(newBuffer1 := first.value.1,
                   newBuffer2 := if s.newBuffer2.None? then second.value.1 else s.newBuffer2,
                   batch := [], cut := [], journal := s.journal + Mark(s.cut, false), phase := Ready))
  }

  /** None means that a null pointer was used or an empty vector popped. */
  function Apply(s: State, e: Event): Option<State>
    requires Enabled(s, e)
  {
    match e
    case Append(line) => AppendLine(s, line)
    case Enter => Some(if s.buffers == [] then s.(phase := Waiting) else Swap(s))
    case Wake => Some(Swap(s))
    case Drop => Some(DropExcess(s))
    case Write => WriteOne(s)
    case Recycle => RecycleBuffers(s)
  }

  ghost predicate Reaches(s: State, es: seq<Event>, r: Option<State>)
    decreases |es|, 0
  {
    if es == [] then r == Some(s)
    else Enabled(s, es[0]) && Continues(Apply(s, es[0]), es[1..], r)
  }

  ghost predicate Continues(mid: Option<State>, es: seq<Event>, r: Option<State>)
    decreases |es|, 1
  {
    if mid.None? then r == None else Reaches(mid.value, es, r)
  }

  // The lines held by a list of buffers, and by the journal.

  function Lines(v: seq<BufferPtr>): seq<string> {
    if v == [] then [] else Lines(v[..|v| - 1]) + Held(v[|v| - 1])
  }

  function Held(b: BufferPtr): seq<string> {
    if b.None? then [] else b.value.lines
  }

  function Mark(lines: seq<string>, written: bool): seq<Fate> {
    if lines == [] then []
    else
      var n := |lines| - 1;
      Mark(lines[..n], written) + [if written then Written(lines[n]) else Dropped(lines[n])]
  }

  function FatedLines(journal: seq<Fate>): seq<string> {
    if journal == [] then [] else FatedLines(journal[..|journal| - 1]) + [journal[|journal| - 1].line]
  }

  function WrittenLines(journal: seq<Fate>): seq<string> {
    if journal == [] then []
    else WrittenLines(journal[..|journal| - 1])
         + var last := journal[|journal| - 1]; if last.Written? then [last.line] else []
  }

  /** Every line the logger knows of, oldest first. */
  function AllLines(s: State): seq<string> {
    FatedLines(s.journal) + Lines(Unwritten(s)) + s.cut + Lines(s.buffers) + Held(s.current)
  }

  function Unwritten(s: State): seq<BufferPtr> {
    if s.phase.Writing? && s.phase.done <= |s.batch| then s.batch[s.phase.done..] else s.batch
  }

  /** The lines that fit into an empty buffer; the others never enter the logger. */
  function Accepted(es: seq<Event>, capacity: nat): seq<string> {
    if es == [] then []
    else AcceptedNow(es[0], capacity) + Accepted(es[1..], capacity)
  }

  function AcceptedNow(e: Event, capacity: nat): seq<string> {
    if e.Append? && |e.line| < capacity then [e.line] else []
  }

  lemma LinesSnoc(v: seq<BufferPtr>, b: BufferPtr)
    ensures Lines(v + [b]) == Lines(v) + Held(b)
  {
    assert (v + [b])[..|v|] == v;
  }

  lemma {:induction false} LinesConcat(v: seq<BufferPtr>, w: seq<BufferPtr>)
    ensures Lines(v + w) == Lines(v) + Lines(w)
  {
    if w == [] {
      assert v + w == v;
    } else {
      var front, last := w[..|w| - 1], w[|w| - 1];
      assert v + w == (v + front) + [last];
      LinesSnoc(v + front, last);
      LinesConcat(v, front);
      Regroup(Lines(v), Lines(front), Held(last));
    }
  }

  lemma LinesSplit(v: seq<BufferPtr>, k: nat)
    requires k <= |v|
    ensures Lines(v) == Lines(v[..k]) + Lines(v[k..])
  {
    CutJoins(v, k);
    LinesConcat(v[..k], v[k..]);
  }

  lemma LinesCons(v: seq<BufferPtr>)
    requires v != []
    ensures Lines(v) == Held(v[0]) + Lines(v[1..])
  {
    assert v == [v[0]] + v[1..];
    LinesConcat([v[0]], v[1..]);
    assert [v[0]][..0] == [] && Lines([v[0]]) == [] + Held(v[0]) == Held(v[0]);
  }

  lemma WrittenLinesSnoc(journal: seq<Fate>, f: Fate)
    ensures WrittenLines(journal + [f]) == WrittenLines(journal) + if f.Written? then [f.line] else []
  {
    assert (journal + [f])[..|journal|] == journal;
  }

  lemma FatedLinesSnoc(journal: seq<Fate>, f: Fate)
    ensures FatedLines(journal + [f]) == FatedLines(journal) + [f.line]
  {
    assert (journal + [f])[..|journal|] == journal;
  }

  lemma {:induction false} FatedMark(journal: seq<Fate>, lines: seq<string>, written: bool)
    ensures FatedLines(journal + Mark(lines, written)) == FatedLines(journal) + lines
  {
    if lines == [] {
      assert journal + Mark(lines, written) == journal;
    } else {
      var n := |lines| - 1;
      var front, last := Mark(lines[..n], written), if written then Written(lines[n]) else Dropped(lines[n]);
      assert journal + Mark(lines, written) == (journal + front) + [last];
      FatedLinesSnoc(journal + front, last);
      FatedMark(journal, lines[..n], written);
      assert lines == lines[..n] + [last.line];
    }
  }

  lemma {:induction false} WrittenLinesConcat(journal: seq<Fate>, lines: seq<string>, written: bool)
    ensures WrittenLines(journal + Mark(lines, written))
         == if written then WrittenLines(journal) + lines else WrittenLines(journal)
  {
    if lines == [] {
      assert journal + Mark(lines, written) == journal;
    } else {
      var n := |lines| - 1;
      var front, last := Mark(lines[..n], written), if written then Written(lines[n]) else Dropped(lines[n]);
      Regroup(journal, front, [last]);
      WrittenLinesSnoc(journal + front, last);
      WrittenLinesConcat(journal, lines[..n], written);
      Regroup(WrittenLines(journal), lines[..n], [last.line]);
      CutJoins(lines, n);
    }
  }

  lemma NothingWritten()
    ensures Flatten(WrittenLines([])) == ""
  {
  }

  lemma WritingGrowsTheFile(journal: seq<Fate>, b: FixedBuffer)
    ensures Flatten(WrittenLines(journal + Mark(b.lines, true))) == Flatten(WrittenLines(journal)) + b.Bytes()
  {
    WrittenLinesConcat(journal, b.lines, true);
    FlattenConcat(WrittenLines(journal), b.lines);
  }

  // Null-safety of the pool.

  ghost predicate AllHeld(v: seq<BufferPtr>) {
    forall i :: 0 <= i < |v| ==> v[i].Some?
  }

  /** The spare buffers the back end may still use, and what its batch must give back. */
  ghost predicate PoolInv(s: State) {
    match s.phase
    case Ready | Waiting =>
      s.batch == [] && s.cut == [] && s.newBuffer1 == FRESH && s.newBuffer2 == FRESH
    case _ =>
      && |s.batch| >= (if s.newBuffer2.None? then 2 else 1)
      && (s.newBuffer2 == None || s.newBuffer2 == FRESH)
      && (s.phase == Swapped ==> s.cut == [])
      && (s.phase.Writing? ==> s.phase.done <= |s.batch|)
  }

  ghost predicate Inv(s: State) {
    && s.current.Some?
    && AllHeld(s.buffers) && AllHeld(s.batch)
    && (s.next == FRESH || (s.next == None && s.buffers != []))
    && PoolInv(s)
  }

  lemma StepIsSafe(s: State, e: Event)
    requires Inv(s) && Enabled(s, e)
    ensures Apply(s, e).Some? && Inv(Apply(s, e).value) && Apply(s, e).value.capacity == s.capacity
  {
    match e
    case Append(line) => AppendIsSafe(s, line);
    case Enter => if s.buffers != [] { SwapIsSafe(s); }
    case Wake => SwapIsSafe(s);
    case Drop =>
    case Write => assert s.batch[s.phase.done].Some?;
    case Recycle => RecycleIsSafe(s);
  }

  lemma AppendIsSafe(s: State, line: string)
    requires Inv(s)
    ensures AppendLine(s, line).Some?
    ensures var s' := AppendLine(s, line).value; Inv(s') && s'.capacity == s.capacity
  {
  }

  /** The back end gives its two spares away and takes over at least one full buffer for them. */
  lemma SwapIsSafe(s: State)
    requires Inv(s) && (s.phase == Ready || s.phase == Waiting)
    ensures Inv(Swap(s))
  {
  }

  /** The batch can give the spares back. */
  lemma RecycleIsSafe(s: State)
    requires Inv(s) && Enabled(s, Recycle)
    ensures RecycleBuffers(s).Some?
    ensures var s' := RecycleBuffers(s).value; Inv(s') && s'.capacity == s.capacity
  {
  }

  /** Every step keeps the lines in order, and an accepted line joins at the end. */
  lemma StepConserves(s: State, e: Event)
    requires Inv(s) && Enabled(s, e) && Apply(s, e).Some?
    ensures AllLines(Apply(s, e).value) == AllLines(s) + AcceptedNow(e, s.capacity)
  {
    match e
    case Append(line) => AppendConserves(s, line);
    case Enter => if s.buffers != [] { SwapConserves(s); }
    case Wake => SwapConserves(s);
    case Drop => DropConserves(s);
    case Write => WriteConserves(s);
    case Recycle => RecycleConserves(s);
  }

  lemma AppendConserves(s: State, line: string)
    requires Inv(s)
    ensures AppendLine(s, line).Some?
    ensures AllLines(AppendLine(s, line).value) == AllLines(s) + AcceptedNow(Append(line), s.capacity)
  {
    var now := AcceptedNow(Append(line), s.capacity);
    var s' := AppendLine(s, line).value;
    var before := FatedLines(s.journal) + Lines(Unwritten(s)) + s.cut + Lines(s.buffers);
    if s.capacity - |s.current.value.Bytes()| > |line| {
      Regroup(before, Held(s.current), now);
    } else {
      LinesSnoc(s.buffers, s.current);
      assert Replacement(s) == FixedBuffer([]) && Held(s'.current) == now;
      Regroup(FatedLines(s.journal) + Lines(Unwritten(s)) + s.cut, Lines(s.buffers), Held(s.current));
    }
  }

  lemma SwapConserves(s: State)
    requires Inv(s) && (s.phase == Ready || s.phase == Waiting)
    ensures AllLines(Swap(s)) == AllLines(s)
  {
    LinesSnoc(s.buffers, s.current);
    RegroupSwap(FatedLines(s.journal), Lines(s.buffers), Held(s.current));
    assert Lines(Swap(s).buffers) == [] && Held(Swap(s).current) == [];
  }

  lemma RegroupSwap(a: seq<string>, b: seq<string>, c: seq<string>)
    ensures a + (b + c) + [] + [] + [] == a + [] + [] + b + c
  {
  }

  lemma DropConserves(s: State)
    requires Inv(s) && s.phase == Swapped
    ensures AllLines(DropExcess(s)) == AllLines(s)
  {
    assert Unwritten(DropExcess(s)) == DropExcess(s).batch;
    if |s.batch| > MAX_BATCH {
      LinesSplit(s.batch, KEPT);
      Regroup(FatedLines(s.journal), Lines(s.batch[..KEPT]), Lines(s.batch[KEPT..]));
      assert FatedLines(s.journal) + Lines(s.batch) + s.cut == FatedLines(s.journal) + Lines(s.batch);
    }
  }

  lemma WriteConserves(s: State)
    requires Inv(s) && Enabled(s, Write)
    ensures WriteOne(s).Some? && AllLines(WriteOne(s).value) == AllLines(s)
  {
    var b := s.batch[s.phase.done].value;
    var s' := WriteOne(s).value;
    LinesCons(Unwritten(s));
    assert Unwritten(s)[1..] == Unwritten(s');
    FatedMark(s.journal, b.lines, true);
    Regroup(FatedLines(s.journal), b.lines, Lines(Unwritten(s')));
  }

  lemma RegroupRecycle(a: seq<string>, b: seq<string>)
    ensures (a + b) + [] + [] == a + [] + b
  {
  }

  lemma RecycleConserves(s: State)
    requires Inv(s) && Enabled(s, Recycle)
    ensures RecycleBuffers(s).Some? && AllLines(RecycleBuffers(s).value) == AllLines(s)
  {
    assert Unwritten(s) == [];
    FatedMark(s.journal, s.cut, false);
    RegroupRecycle(FatedLines(s.journal), s.cut);
  }

  /** Under every interleaving the logger never uses a null pointer nor pops an empty vector. */
  lemma {:induction false} NeverUsesNull(s: State, es: seq<Event>, r: Option<State>)
    requires Inv(s) && Reaches(s, es, r)
    ensures r.Some? && Inv(r.value)
    decreases |es|
  {
    if es != [] {
      StepIsSafe(s, es[0]);
      NeverUsesNull(Apply(s, es[0]).value, es[1..], r);
    }
  }

  /** Under every interleaving, the lines whose fate is settled, then the unwritten batch, then
      this round's cut, then the full buffers, then the current one are exactly the accepted
      lines, in order. A line can only be lost by the cut of a batch of more than 16 buffers. */
  lemma {:induction false} LinesAreConserved(s: State, es: seq<Event>, r: Option<State>)
    requires Inv(s) && Reaches(s, es, r)
    ensures r.Some? && r.value.capacity == s.capacity
    ensures AllLines(r.value) == AllLines(s) + Accepted(es, s.capacity)
    decreases |es|
  {
    if es != [] {
      StepIsSafe(s, es[0]);
      StepConserves(s, es[0]);
      LinesAreConserved(Apply(s, es[0]).value, es[1..], r);
      Regroup(AllLines(s), AcceptedNow(es[0], s.capacity), Accepted(es[1..], s.capacity));
    }
  }

  lemma LoggerConservesLines(capacity: nat, es: seq<Event>, r: Option<State>)
    requires Reaches(Init(capacity), es, r)
    ensures r.Some? && AllLines(r.value) == Accepted(es, capacity)
  {
    LinesAreConserved(Init(capacity), es, r);
    assert AllLines(Init(capacity)) == [];
  }

  lemma InitInv(capacity: nat)
    ensures Inv(Init(capacity))
  {
  }

  // What is lost.

  ghost predicate AllWritten(journal: seq<Fate>) {
    forall f <- journal :: f.Written?
  }

  /** No line has been dropped and none is about to be. */
  ghost predicate NothingLost(s: State) {
    s.cut == [] && AllWritten(s.journal)
  }

  /** The step cuts a batch of more than 16 buffers, and the buffers it cuts hold lines. */
  predicate CutsLines(s: State, e: Event) {
    e.Drop? && |s.batch| > MAX_BATCH && Lines(s.batch[KEPT..]) != []
  }

  /** No round of the run cuts lines. */
  ghost predicate CutsNothing(s: State, es: seq<Event>)
    decreases |es|
  {
    es == [] || !Enabled(s, es[0]) || (
      && !CutsLines(s, es[0])
      && var s' := Apply(s, es[0]); s'.None? || CutsNothing(s'.value, es[1..]))
  }

  lemma {:induction false} MarkKeepsKind(lines: seq<string>, written: bool)
    ensures |Mark(lines, written)| == |lines| && forall f <- Mark(lines, written) :: f.Written? == written
  {
    if lines != [] {
      MarkKeepsKind(lines[..|lines| - 1], written);
    }
  }

  /** Lines are lost by the step that cuts them and by no other, and they stay lost. */
  lemma StepLoses(s: State, e: Event)
    requires Inv(s) && Enabled(s, e)
    ensures Apply(s, e).Some?
    ensures NothingLost(Apply(s, e).value) <==> NothingLost(s) && !CutsLines(s, e)
  {
    StepIsSafe(s, e);
    var s' := Apply(s, e).value;
    match e
    case Write => JournalGrows(s.journal, s.batch[s.phase.done].value.lines, true);
    case Recycle => JournalGrows(s.journal, s.cut, false);
    case _ => assert s'.journal == s.journal;
  }

  lemma JournalGrows(journal: seq<Fate>, lines: seq<string>, written: bool)
    ensures AllWritten(journal + Mark(lines, written)) <==> AllWritten(journal) && (written || lines == [])
  {
    var more := Mark(lines, written);
    MarkKeepsKind(lines, written);
    assert forall f <- journal :: f in journal + more;
    assert forall f <- more :: f in journal + more;
    if lines != [] && !written {
      assert more[0] in more;
    }
  }

  /** Over a whole run every line that has left the logger's buffers has been written exactly when
      every batch of more than 16 buffers was cut in buffers that held no lines. */
  lemma {:induction false} OnlyCutsLoseLines(s: State, es: seq<Event>, r: Option<State>)
    requires Inv(s) && Reaches(s, es, r)
    ensures r.Some?
    ensures NothingLost(r.value) <==> NothingLost(s) && CutsNothing(s, es)
    decreases |es|
  {
    if es != [] {
      StepIsSafe(s, es[0]);
      StepLoses(s, es[0]);
      OnlyCutsLoseLines(Apply(s, es[0]).value, es[1..], r);
    }
  }
  // What the files get, told from the events.

  /** The buffers filled since the last swap, the current one last, and the buffers every swap
      has taken. */
  datatype Ledger = Ledger(open: seq<BufferPtr>, rounds: seq<seq<BufferPtr>>)

  const BLANK: Ledger := Ledger([FRESH], [])

  /** A line goes behind the last one if the buffer has room to spare for it, else into a new
      buffer, unless it does not even fit there. A swap takes everything; the back end waits for
      one only when it finds no full buffer. */
  function Note(l: Ledger, e: Event, capacity: nat): (r: Ledger)
    requires l.open != []
    ensures r.open != []
  {
    match e
    case Append(line) =>
      var last := |l.open| - 1;
      if |Flatten(Held(l.open[last]))| + |line| < capacity then
        l.(open := l.open[..last] + [Some(FixedBuffer(Held(l.open[last]) + [line]))])
      else l.(open := l.open + [Some(FixedBuffer(if |line| < capacity then [line] else []))])
    case Enter => if |l.open| == 1 then l else Close(l)
    case Wake => Close(l)
    case _ => l
  }

  function Close(l: Ledger): Ledger {
    Ledger([FRESH], l.rounds + [l.open])
  }

  function Noted(l: Ledger, es: seq<Event>, capacity: nat): (r: Ledger)
    requires l.open != []
    ensures r.open != []
    decreases |es|
  {
    if es == [] then l else Noted(Note(l, es[0], capacity), es[1..], capacity)
  }

  /** What a round writes: all that was taken, or the first two buffers of more than sixteen. */
  function Kept(round: seq<BufferPtr>): seq<BufferPtr> {
    if |round| > 16 then round[..2] else round
  }

  function KeptLines(rounds: seq<seq<BufferPtr>>): seq<string> {
    if rounds == [] then []
    else KeptLines(rounds[..|rounds| - 1]) + Lines(Kept(rounds[|rounds| - 1]))
  }

  /** The state follows the ledger. */
  ghost predicate Follows(s: State, l: Ledger) {
    && l.open == s.buffers + [s.current]
    && match s.phase
       case Ready | Waiting => WrittenLines(s.journal) == KeptLines(l.rounds)
       case Swapped =>
         && l.rounds != []
         && s.batch == l.rounds[|l.rounds| - 1]
         && WrittenLines(s.journal) == KeptLines(l.rounds[..|l.rounds| - 1])
       case Writing(done) =>
         && l.rounds != [] && done <= |s.batch|
         && s.batch == Kept(l.rounds[|l.rounds| - 1])
         && WrittenLines(s.journal) == KeptLines(l.rounds[..|l.rounds| - 1]) + Lines(s.batch[..done])
  }

  lemma StepFollows(s: State, l: Ledger, e: Event)
    requires Inv(s) && Enabled(s, e) && Follows(s, l)
    ensures Apply(s, e).Some? && Follows(Apply(s, e).value, Note(l, e, s.capacity))
  {
    match e
    case Append(line) => AppendFollows(s, l, line);
    case Enter => if s.buffers != [] { SwapFollows(s, l); }
    case Wake => SwapFollows(s, l);
    case Drop => assert DropExcess(s).batch[..0] == [];
    case Write => WriteFollows(s, l);
    case Recycle => RecycleFollows(s, l);
  }

  lemma AppendFollows(s: State, l: Ledger, line: string)
    requires Inv(s) && Follows(s, l)
    ensures AppendLine(s, line).Some?
    ensures Follows(AppendLine(s, line).value, Note(l, Append(line), s.capacity))
  {
    var open := NoteLine(s.buffers, s.current, line, s.capacity);
    var s' := AppendLine(s, line).value;
    LineIsNoted(l, s.buffers, s.current, line, s.capacity);
    if s.capacity - |s.current.value.Bytes()| > |line| {
      assert open == s.buffers + [s'.current];
    } else {
      assert Replacement(s) == FixedBuffer([]) && [] + [line] == [line];
      assert open == (s.buffers + [s.current]) + [s'.current];
    }
  }

  /** The same with the last buffer apart. */
  function NoteLine(full: seq<BufferPtr>, last: BufferPtr, line: string, capacity: nat): seq<BufferPtr> {
    if |Flatten(Held(last))| + |line| < capacity then full + [Some(FixedBuffer(Held(last) + [line]))]
    else (full + [last]) + [Some(FixedBuffer(if |line| < capacity then [line] else []))]
  }

  lemma LineIsNoted(l: Ledger, full: seq<BufferPtr>, last: BufferPtr, line: string, capacity: nat)
    requires l.open == full + [last]
    ensures Note(l, Append(line), capacity) == l.(open := NoteLine(full, last, line, capacity))
  {
    assert l.open[..|l.open| - 1] == full;
  }

  lemma SwapFollows(s: State, l: Ledger)
    requires Inv(s) && (s.phase == Ready || s.phase == Waiting) && Follows(s, l)
    ensures Follows(Swap(s), Close(l))
  {
    assert Close(l).rounds[..|l.rounds|] == l.rounds;
  }

  lemma WriteFollows(s: State, l: Ledger)
    requires Inv(s) && Enabled(s, Write) && Follows(s, l)
    ensures WriteOne(s).Some? && Follows(WriteOne(s).value, l)
  {
    var done := s.phase.done;
    var lines := s.batch[done].value.lines;
    WrittenLinesConcat(s.journal, lines, true);
    LinesTaken(s.batch, done);
    Regroup(KeptLines(l.rounds[..|l.rounds| - 1]), Lines(s.batch[..done]), lines);
  }

  lemma LinesTaken(v: seq<BufferPtr>, k: nat)
    requires k < |v|
    ensures Lines(v[..k + 1]) == Lines(v[..k]) + Held(v[k])
  {
    LinesSnoc(v[..k], v[k]);
    assert v[..k + 1] == v[..k] + [v[k]];
  }

  lemma RecycleFollows(s: State, l: Ledger)
    requires Inv(s) && Enabled(s, Recycle) && Follows(s, l)
    ensures RecycleBuffers(s).Some? && Follows(RecycleBuffers(s).value, l)
  {
    RecycleIsSafe(s);
    WrittenLinesConcat(s.journal, s.cut, false);
    assert s.batch[..s.phase.done] == s.batch;
  }

  /** The moves and swaps of the pointers leave what a logger without them would do: the front end
      packs the lines into buffers, every swap takes all of them, and the files get, round by
      round, what was taken, or the first two buffers where more than sixteen had piled up. */
  lemma {:induction false} FilesFollowTheRounds(s: State, l: Ledger, es: seq<Event>, r: Option<State>)
    requires Inv(s) && Follows(s, l) && Reaches(s, es, r)
    ensures r.Some? && Follows(r.value, Noted(l, es, s.capacity))
    decreases |es|
  {
    if es != [] {
      StepIsSafe(s, es[0]);
      StepFollows(s, l, es[0]);
      FilesFollowTheRounds(Apply(s, es[0]).value, Note(l, es[0], s.capacity), es[1..], r);
    }
  }

  lemma LoggerFollowsItsRounds(capacity: nat, es: seq<Event>, r: Option<State>)
    requires Reaches(Init(capacity), es, r)
    ensures r.Some? && r.value.buffers + [r.value.current] == Noted(BLANK, es, capacity).open
    ensures !r.value.phase.Writing? && !r.value.phase.Swapped?
            ==> WrittenLines(r.value.journal) == KeptLines(Noted(BLANK, es, capacity).rounds)
  {
    FilesFollowTheRounds(Init(capacity), BLANK, es, r);
  }
}

/** The logger object. The array of a FixedBuffer is modelled in place; which pointer holds which
    buffer is modelled on values. */
module AsyncLoggings {
  import opened Options
  import opened Flattening
  import opened LogFiles
  import P = AsyncLoggingProtocol
  import F = LogFileProtocol

  class FixedBuffer {
    const buffer: array<char>
    var cur: nat
    ghost var lines: seq<string>

    ghost predicate Valid()
      reads this, buffer
    {
      cur <= buffer.Length && buffer[..cur] == Flatten(lines)
    }

    constructor (capacity: nat)
      ensures Valid() && fresh(buffer) && lines == [] && buffer.Length == capacity
    {
      buffer := new char[capacity];
      cur, lines := 0, [];
    }

    function AvailableBytes(): (n: nat)
      requires Valid()
      reads this, buffer
      ensures n == buffer.Length - |Flatten(lines)|
    {
      assert |buffer[..cur]| == cur;
      buffer.Length - cur
    }

    method Append(line: string)
      requires Valid()
      modifies this, buffer
      ensures Valid()
      ensures P.FixedBuffer(lines) == P.FixedBuffer(old(lines)).Append(buffer.Length, line)
    {
      assert |buffer[..cur]| == cur;
      if AvailableBytes() > |line| {
        forall i | 0 <= i < |line| {
          buffer[cur + i] := line[i];
        }
        assert buffer[..cur] == old(buffer[..cur]);
        assert buffer[..cur + |line|] == buffer[..cur] + line;
        cur := cur + |line|;
        FlattenSnoc(lines, line);
        lines := lines + [line];
      }
    }

    method Reset()
      modifies this
      ensures Valid() && lines == []
    {
      cur, lines := 0, [];
    }

    method Data() returns (bytes: string)
      requires Valid()
      ensures bytes == Flatten(lines)
    {
      bytes := buffer[..cur];
    }
  }

  /** A pointer is an optional value (see the protocol); std::move leaves None behind, and every
      dereference is `.value`, which the verifier accepts only on Some. */
  class AsyncLogging {
    const capacity: nat
    const file: LogFile
    var buffers: seq<P.BufferPtr>
    var currentBuffer: P.BufferPtr
    var nextBuffer: P.BufferPtr
    var newBuffer1: P.BufferPtr
    var newBuffer2: P.BufferPtr
    var buffersToWrite: seq<P.BufferPtr>
    var phase: P.Phase
    ghost var cut: seq<string>
    ghost var journal: seq<P.Fate>

    ghost function Model(): P.State
      reads this
    {
      P.State(capacity, buffers, currentBuffer, nextBuffer, newBuffer1, newBuffer2,
              buffersToWrite, phase, cut, journal)
    }

    /** The log files hold exactly the lines the journal calls written. */
    ghost predicate FileHolds(journal: seq<P.Fate>)
      reads file
    {
      file.Valid() && F.AllBytes(file.Model().files) == Flatten(P.WrittenLines(journal))
    }

    ghost predicate Valid()
      reads this, file
    {
      P.Inv(Model()) && FileHolds(journal)
    }

    constructor (capacity: nat, config: F.Config, now: int)
      requires F.MICROSECONDS_PER_SECOND <= now
      ensures Valid() && Model() == P.Init(capacity) && fresh(file)
    {
      this.capacity := capacity;
      currentBuffer, nextBuffer, newBuffer1, newBuffer2 := P.FRESH, P.FRESH, P.FRESH, P.FRESH;
      buffers, buffersToWrite, phase := [], [], P.Ready;
      cut, journal := [], [];
      file := new LogFile(config, now);
      new;
      NewIsValid();
    }

    lemma NewIsValid()
      requires Model() == P.Init(capacity) && file.Valid() && F.AllBytes(file.Model().files) == ""
      ensures Valid()
    {
      P.InitInv(capacity);
      P.NothingWritten();
      assert journal == [];
    }

    method Append(line: string)
      requires Valid()
      modifies this
      ensures Valid() && Some(Model()) == P.Apply(old(Model()), P.Append(line))
    {
      P.StepIsSafe(Model(), P.Append(line));
      if capacity - |currentBuffer.value.Bytes()| > |line| {
        currentBuffer := Some(currentBuffer.value.Append(capacity, line));
      } else {
        buffers, currentBuffer := buffers + [currentBuffer], None;
        if nextBuffer.Some? {
          currentBuffer, nextBuffer := nextBuffer, None;
        } else {
          currentBuffer := P.FRESH;
        }
        currentBuffer := Some(currentBuffer.value.Append(capacity, line));
      }
    }

    /** The back end takes the lock: it parks if no buffer is full, else it swaps. */
    method Enter()
      requires Valid() && phase == P.Ready
      modifies this
      ensures Valid() && Some(Model()) == P.Apply(old(Model()), P.Enter)
    {
      P.StepIsSafe(Model(), P.Enter);
      if |buffers| == 0 {
        phase := P.Waiting;
      } else {
        Swap();
      }
    }

    /** WaitForSeconds returns; the condition is not looked at again. */
    method Wake()
      requires Valid() && phase == P.Waiting
      modifies this
      ensures Valid() && Some(Model()) == P.Apply(old(Model()), P.Wake)
    {
      P.StepIsSafe(Model(), P.Wake);
      Swap();
    }

    method Swap()
      modifies this
      ensures Model() == P.Swap(old(Model()))
    {
      buffers, currentBuffer := buffers + [currentBuffer], None;
      currentBuffer, newBuffer1 := newBuffer1, None;
      buffers, buffersToWrite := buffersToWrite, buffers;
      if nextBuffer.None? {
        nextBuffer, newBuffer2 := newBuffer2, None;
      }
      phase := P.Swapped;
    }

    method DropExcess()
      requires Valid() && phase == P.Swapped
      modifies this
      ensures Valid() && Some(Model()) == P.Apply(old(Model()), P.Drop)
    {
      P.StepIsSafe(Model(), P.Drop);
      if |buffersToWrite| > P.MAX_BATCH {
        cut := P.Lines(buffersToWrite[P.KEPT..]);
        buffersToWrite := buffersToWrite[..P.KEPT];
      }
      phase := P.Writing(0);
    }

    /** One turn of the write loop; the lock is free, so appends may come between two turns. */
    method WriteOne(now: int, later: int)
      requires Valid() && P.Enabled(Model(), P.Write) && file.lastRoll < now <= later
      modifies this, file
      ensures Valid() && Some(Model()) == P.Apply(old(Model()), P.Write)
    {
      P.StepIsSafe(Model(), P.Write);
      AppendToFile(buffersToWrite[phase.done].value, now, later);
      Advance();
    }

    method Advance()
      requires P.Enabled(Model(), P.Write) && P.WriteOne(Model()).Some?
      modifies this`journal, this`phase
      ensures Some(Model()) == P.WriteOne(old(Model()))
    {
      journal := journal + P.Mark(buffersToWrite[phase.done].value.lines, true);
      phase := P.Writing(phase.done + 1);
    }

    /** output.Append(buffer->Data(), buffer->WrittenBytes()). */
    method AppendToFile(buffer: P.FixedBuffer, now: int, later: int)
      requires FileHolds(journal) && file.lastRoll < now <= later
      modifies file
      ensures FileHolds(journal + P.Mark(buffer.lines, true))
    {
      P.WritingGrowsTheFile(journal, buffer);
      file.Append(buffer.Bytes(), now, later);
    }

    /** The rest of the round. */
    method Recycle()
      requires Valid() && P.Enabled(Model(), P.Recycle)
      modifies this
      ensures Valid() && Some(Model()) == P.Apply(old(Model()), P.Recycle)
    {
      P.StepIsSafe(Model(), P.Recycle);
      P.WrittenLinesConcat(journal, cut, false);
      Refill();
    }

    /** Refill the two spare buffers from the batch and clear it. */
    method Refill()
      requires P.RecycleBuffers(Model()).Some?
      modifies this
      ensures Some(Model()) == P.RecycleBuffers(old(Model()))
    {
      if |buffersToWrite| > P.KEPT {
        buffersToWrite := buffersToWrite[..P.KEPT];
      }
      newBuffer1 := TakeBack();
      if newBuffer2.None? {
        newBuffer2 := TakeBack();
      }
      buffersToWrite := [];
      journal := journal + P.Mark(cut, false);
      cut := [];
      phase := P.Ready;
    }

    /** std::move(back()), pop_back() and Reset(). */
    method TakeBack() returns (buffer: P.BufferPtr)
      requires buffersToWrite != [] && buffersToWrite[|buffersToWrite| - 1].Some?
      modifies this`buffersToWrite
      ensures P.PopAndReset(old(buffersToWrite)) == Some((buffersToWrite, buffer))
    {
      buffer := Some(buffersToWrite[|buffersToWrite| - 1].value.(lines := []));
      buffersToWrite := buffersToWrite[..|buffersToWrite| - 1];
    }
  }
}
