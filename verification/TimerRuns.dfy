/** What whole runs of the timer queue do with the timers that are added and cancelled, told from
    the events: order of the posted functors, deadlines and intervals, cancelling from any thread,
    and what the kernel timer is armed for. */
module TimerRuns {
  import opened Options
  import opened Sequences
  import opened TimerSets
  import opened TimerQueueProtocol

  // Functors run in the order in which they were posted.

  function PostedBy(e: Event): seq<Functor> {
    match e
    case Add(p, _, _, foreign) => if foreign then [PostedAdd(p)] else []
    case Cancel(h, foreign) => if foreign then [PostedCancel(h)] else []
    case _ => []
  }

  /** What other threads post in a run, in order. */
  function Posts(es: seq<Event>): seq<Functor>
    decreases |es|
  {
    if es == [] then [] else PostedBy(es[0]) + Posts(es[1..])
  }

  /** How many functors the loop runs. */
  function RunCount(es: seq<Event>): nat
    decreases |es|
  {
    if es == [] then 0 else RunCount(es[1..]) + if es[0].RunPosted? then 1 else 0
  }

  lemma PostingStep(s: State, e: Event)
    requires Enabled(s, e) && Apply(s, e).Some?
    ensures Apply(s, e).value.posted == if e.RunPosted? then s.posted[1..] else s.posted + PostedBy(e)
  {
  }

  lemma {:induction false} FunctorsRunInOrder(s: State, es: seq<Event>, s': State)
    requires Reaches(s, es, Some(s'))
    ensures RunCount(es) <= |s.posted + Posts(es)| && s'.posted == (s.posted + Posts(es))[RunCount(es)..]
    decreases |es|
  {
    if es != [] {
      PostingStep(s, es[0]);
      FunctorsRunInOrder(Apply(s, es[0]).value, es[1..], s');
      if es[0].RunPosted? {
        HeadRuns(s.posted, es, RunCount(es[1..]));
      } else {
        PostedLater(s.posted, es);
      }
    }
  }

  lemma HeadRuns(posted: seq<Functor>, es: seq<Event>, k: nat)
    requires es != [] && es[0].RunPosted? && posted != [] && k <= |posted[1..] + Posts(es[1..])|
    ensures k + 1 <= |posted + Posts(es)| && (posted[1..] + Posts(es[1..]))[k..] == (posted + Posts(es))[k + 1..]
  {
    NothingPosted(es);
    HeadDropped(posted, Posts(es[1..]), k);
  }

  lemma NothingPosted(es: seq<Event>)
    requires es != [] && PostedBy(es[0]) == []
    ensures Posts(es) == Posts(es[1..])
  {
    assert [] + Posts(es[1..]) == Posts(es[1..]);
  }

  lemma PostedLater(posted: seq<Functor>, es: seq<Event>)
    requires es != []
    ensures (posted + PostedBy(es[0])) + Posts(es[1..]) == posted + Posts(es)
  {
  }

  /** In every run the loop runs what other threads post in the order of posting. */
  lemma PostedRunInOrder(clock: int, es: seq<Event>, s: State)
    requires Reaches(Init(clock), es, Some(s))
    ensures RunCount(es) <= |Posts(es)| && s.posted == Posts(es)[RunCount(es)..]
  {
    FunctorsRunInOrder(Init(clock), es, s);
    assert [] + Posts(es) == Posts(es);
  }

  /** How far the clock moves. */
  function Elapsed(es: seq<Event>): nat
    decreases |es|
  {
    if es == [] then 0 else Elapsed(es[1..]) + if es[0].Tick? then es[0].d else 0
  }

  /** Only time moves the clock: what is due depends on the ticks alone. */
  lemma {:induction false} ClockIsTicks(s: State, es: seq<Event>, s': State)
    requires Reaches(s, es, Some(s'))
    ensures s'.clock == s.clock + Elapsed(es)
    decreases |es|
  {
    if es != [] {
      ClockStep(s, es[0]);
      ClockIsTicks(Apply(s, es[0]).value, es[1..], s');
    }
  }

  lemma ClockStep(s: State, e: Event)
    requires Enabled(s, e) && Apply(s, e).Some?
    ensures Apply(s, e).value.clock == s.clock + if e.Tick? then e.d else 0
  {
  }

  // Timers keep the deadline and the interval they were added with.

  /** The additions of a run; the n-th makes the timer with sequence n. */
  function Adds(es: seq<Event>): seq<Event>
    decreases |es|
  {
    if es == [] then [] else (if es[0].Add? then [es[0]] else []) + Adds(es[1..])
  }

  ghost predicate HasRun(s: State, sequence: int) {
    exists r <- s.ran :: r.index.sequence == sequence
  }

  ghost predicate AsAdded(s: State, adds: seq<Event>, p: Ptr)
    requires p in s.heap
  {
    var t := s.heap[p];
    && 1 <= t.sequence <= |adds|
    && var a := adds[t.sequence - 1];
       a.Add? && a.timer == p && a.interval == t.interval && (!HasRun(s, t.sequence) ==> a.when == t.expiration)
  }

  ghost predicate Recorded(s: State, adds: seq<Event>) {
    && s.count == |adds|
    && (forall p <- s.heap :: AsAdded(s, adds, p))
    && (s.running ==> s.batch != [] && HasRun(s, s.batch[0].sequence))
  }

  /** No timer changes but for its owner, and nothing is called. */
  ghost predicate Quiet(s: State, s': State) {
    && s'.count == s.count && s'.ran == s.ran && (s'.running ==> s.running && s'.batch == s.batch)
    && forall p <- s'.heap :: p in s.heap && s'.heap[p] == s.heap[p].(owner := s'.heap[p].owner)
  }

  lemma AddInLoopIsQuiet(s: State, p: Ptr)
    requires AddTimerInLoop(s, p).Some?
    ensures Quiet(s, AddTimerInLoop(s, p).value)
  {
  }

  lemma CancelIsQuiet(s: State, h: TimerIndex)
    requires CancelTimerInLoop(s, h).Some?
    ensures Quiet(s, CancelTimerInLoop(s, h).value)
  {
  }

  lemma RunPostedIsQuiet(s: State)
    requires Enabled(s, RunPosted) && Apply(s, RunPosted).Some?
    ensures Quiet(s, Apply(s, RunPosted).value)
  {
    var s1 := s.(posted := s.posted[1..]);
    match s.posted[0]
    case PostedAdd(p) => AddInLoopIsQuiet(s1, p);
    case PostedCancel(h) => CancelIsQuiet(s1, h);
  }

  lemma QuietStep(s: State, e: Event)
    requires Enabled(s, e) && Apply(s, e).Some? && !e.Add? && !e.RunCallback? && !e.Finish?
    ensures Quiet(s, Apply(s, e).value)
  {
    match e
    case Cancel(h, foreign) => if !foreign { CancelIsQuiet(s, h); }
    case RunPosted => RunPostedIsQuiet(s);
    case _ =>
  }

  lemma SameTimers(s: State, s': State, adds: seq<Event>)
    requires Recorded(s, adds) && Quiet(s, s')
    ensures Recorded(s', adds)
  {
    forall p | p in s'.heap
      ensures AsAdded(s', adds, p)
    {
      assert AsAdded(s, adds, p);
    }
  }

  lemma AllocationIsRecorded(s: State, adds: seq<Event>, e: Event)
    requires Recorded(s, adds) && e.Add? && e.timer !in s.heap
    ensures Recorded(Allocate(s, e.timer, e.when, e.interval), adds + [e])
  {
    var s' := Allocate(s, e.timer, e.when, e.interval);
    assert (adds + [e])[s.count] == e;
    forall p | p in s'.heap
      ensures AsAdded(s', adds + [e], p)
    {
      assert p != e.timer ==> AsAdded(s, adds, p);
    }
  }

  lemma AddIsRecorded(s: State, adds: seq<Event>, e: Event)
    requires Recorded(s, adds) && Enabled(s, e) && e.Add? && Apply(s, e).Some?
    ensures Recorded(Apply(s, e).value, adds + [e])
  {
    AllocationIsRecorded(s, adds, e);
    var h, s1 := TimerIndex(e.timer, e.when, s.count + 1), Allocate(s, e.timer, e.when, e.interval);
    if !e.foreign {
      AddInLoopIsQuiet(s1.(handles := s1.handles + {h}), e.timer);
    }
    SameTimers(s1, Apply(s, e).value, adds + [e]);
  }

  lemma CallIsRecorded(s: State, adds: seq<Event>)
    requires Recorded(s, adds) && Enabled(s, RunCallback) && CallBack(s).Some?
    ensures Recorded(CallBack(s).value, adds)
  {
    var s' := CallBack(s).value;
    assert s'.ran[|s.ran|].index == s.batch[0];
    assert forall r <- s.ran :: r in s'.ran;
    forall p | p in s'.heap
      ensures AsAdded(s', adds, p)
    {
      assert AsAdded(s, adds, p);
    }
  }

  lemma FinishIsRecorded(s: State, adds: seq<Event>)
    requires Inv(s) && Recorded(s, adds) && Enabled(s, Finish)
    ensures FinishOne(s).Some? && Recorded(FinishOne(s).value, adds)
  {
    FinishKeepsInv(s);
    assert s.batch[0] in s.batch;
    var s' := FinishOne(s).value;
    forall p | p in s'.heap
      ensures AsAdded(s', adds, p)
    {
      assert AsAdded(s, adds, p);
    }
  }

  lemma StepIsRecorded(s: State, adds: seq<Event>, e: Event)
    requires Inv(s) && Recorded(s, adds) && Enabled(s, e) && Apply(s, e).Some?
    ensures Recorded(Apply(s, e).value, if e.Add? then adds + [e] else adds)
  {
    match e
    case Add(_, _, _, _) => AddIsRecorded(s, adds, e);
    case RunCallback => CallIsRecorded(s, adds);
    case Finish => FinishIsRecorded(s, adds);
    case _ =>
      QuietStep(s, e);
      SameTimers(s, Apply(s, e).value, adds);
  }

  lemma AddsCons(adds: seq<Event>, es: seq<Event>)
    requires es != []
    ensures adds + Adds(es) == (if es[0].Add? then adds + [es[0]] else adds) + Adds(es[1..])
  {
  }

  lemma {:induction false} RunIsRecorded(s: State, adds: seq<Event>, es: seq<Event>, s': State)
    requires Inv(s) && Recorded(s, adds) && Reaches(s, es, Some(s'))
    ensures Recorded(s', adds + Adds(es))
    decreases |es|
  {
    if es == [] {
      assert adds + [] == adds;
    } else {
      StepIsSafe(s, es[0]);
      StepIsRecorded(s, adds, es[0]);
      RunIsRecorded(Apply(s, es[0]).value, if es[0].Add? then adds + [es[0]] else adds, es[1..], s');
      AddsCons(adds, es);
    }
  }

  /** In every run the n-th addition makes the timer with sequence n, at its address and with its
      interval; its deadline is the one it was added with until its callback has been called. */
  lemma TimersAreAsAdded(clock: int, es: seq<Event>, s: State)
    requires Reaches(Init(clock), es, Some(s))
    ensures s.count == |Adds(es)|
    ensures forall p <- s.heap :: AsAdded(s, Adds(es), p)
  {
    NothingAdded(clock);
    assert [] + Adds(es) == Adds(es);
    RunIsRecorded(Init(clock), [], es, s);
  }

  lemma NothingAdded(clock: int)
    ensures Inv(Init(clock)) && Recorded(Init(clock), [])
  {
    InitInv(clock);
  }

  /** An addition in the loop, and the functor of one elsewhere, puts exactly its timer in the set. */
  lemma AddTakesEffect(s: State, e: Event, p: Ptr)
    requires Inv(s) && Enabled(s, e)
    requires (e.Add? && !e.foreign && e.timer == p) || (e.RunPosted? && s.posted[0] == PostedAdd(p))
    ensures Apply(s, e).Some?
    ensures var s' := Apply(s, e).value;
      p in s'.heap && forall x :: x in s'.timers <==> x in s.timers || x == Index(s'.heap, p)
  {
    StepIsSafe(s, e);
    if e.Add? {
      var x := TimerIndex(p, e.when, s.count + 1);
      InsertKeepsOrder(s.timers, x);
    } else {
      assert s.posted[0] in s.posted;
      InsertKeepsOrder(s.timers, Index(s.heap, p));
    }
  }

  // A cancelled timer is gone, and is never called again.

  /** The timer with this sequence is not alive. */
  ghost predicate Gone(s: State, sequence: int) {
    forall p <- s.heap :: s.heap[p].sequence != sequence
  }

  /** No callback of the timer with this sequence is called after the first n calls of any. */
  ghost predicate NotCalledAfter(s: State, n: nat, sequence: int) {
    n <= |s.ran| && forall i :: n <= i < |s.ran| ==> s.ran[i].index.sequence != sequence
  }

  lemma GoneStep(s: State, e: Event, sequence: int, n: nat)
    requires Inv(s) && Enabled(s, e) && Apply(s, e).Some?
    requires Gone(s, sequence) && sequence <= s.count && NotCalledAfter(s, n, sequence)
    ensures var s' := Apply(s, e).value;
      Gone(s', sequence) && sequence <= s'.count && NotCalledAfter(s', n, sequence)
  {
    match e
    case Add(p, when, interval, foreign) => AddLeavesGone(s, e, sequence);
    case RunCallback => assert s.batch[0] in s.batch;
    case Finish => FinishLeavesGone(s, sequence);
    case _ => QuietStep(s, e);
  }

  lemma AddLeavesGone(s: State, e: Event, sequence: int)
    requires Inv(s) && Enabled(s, e) && e.Add? && Gone(s, sequence) && sequence <= s.count
    ensures Apply(s, e).Some?
    ensures var s' := Apply(s, e).value; Gone(s', sequence) && sequence <= s'.count && s'.ran == s.ran
  {
    AddTimerKeepsInv(s, e.timer, e.when, e.interval, e.foreign);
  }

  lemma FinishLeavesGone(s: State, sequence: int)
    requires Inv(s) && Enabled(s, Finish) && Gone(s, sequence)
    ensures FinishOne(s).Some?
    ensures var s' := FinishOne(s).value; Gone(s', sequence) && s'.ran == s.ran && s'.count == s.count
  {
    FinishAges(s);
    assert s.batch[0] in s.batch;
  }

  /** A timer that is gone never comes back and is never called again. */
  lemma {:induction false} GoneForEver(s: State, es: seq<Event>, s': State, sequence: int, n: nat)
    requires Inv(s) && Reaches(s, es, Some(s'))
    requires Gone(s, sequence) && sequence <= s.count && NotCalledAfter(s, n, sequence)
    ensures Gone(s', sequence) && NotCalledAfter(s', n, sequence)
    decreases |es|
  {
    if es != [] {
      StepIsSafe(s, es[0]);
      GoneStep(s, es[0], sequence, n);
      GoneForEver(Apply(s, es[0]).value, es[1..], s', sequence, n);
    }
  }

  /** The handle is that of a timer that is alive and waits, in the set or in a posted functor. */
  ghost predicate Waits(s: State, h: TimerIndex) {
    h.timer in s.heap && h == Index(s.heap, h.timer) && s.heap[h.timer].owner != InBatch
  }

  lemma WaitsAlone(s: State, h: TimerIndex, p: Ptr)
    requires Inv(s) && Waits(s, h) && p in s.heap && s.heap[p].sequence == h.sequence
    ensures p == h.timer
  {
  }

  /** In the loop a handle is cancelled at once. */
  lemma CancelTakesEffect(s: State, h: TimerIndex)
    requires Inv(s) && Enabled(s, Cancel(h, false)) && Waits(s, h) && s.heap[h.timer].owner == InSet
    ensures Apply(s, Cancel(h, false)).Some? && Gone(Apply(s, Cancel(h, false)).value, h.sequence)
  {
    CancelIsByKey(s, h);
  }

  /** A posted cancel at position k, with its timer gone already, or waiting and not to be added
      behind it. */
  ghost predicate Doomed(s: State, h: TimerIndex, k: nat) {
    && k < |s.posted| && s.posted[k] == PostedCancel(h) && h.sequence <= s.count
    && (Gone(s, h.sequence) || (Waits(s, h) && (s.heap[h.timer].owner == InPost ==> PostedAdd(h.timer) in s.posted[..k])))
  }

  /** The timer of h is gone, or has only changed its owner to the set. */
  ghost predicate Fares(s: State, s': State, h: TimerIndex) {
    Gone(s', h.sequence) || (
      && Waits(s', h)
      && (s'.heap[h.timer].owner == InPost ==> h.timer in s.heap && s.heap[h.timer].owner == InPost))
  }

  lemma CancelFares(s: State, g: TimerIndex, h: TimerIndex)
    requires Inv(s) && g in s.handles && Waits(s, h)
    ensures CancelTimerInLoop(s, g).Some? && Fares(s, CancelTimerInLoop(s, g).value, h)
  {
    CancelIsByKey(s, g);
    var s' := CancelTimerInLoop(s, g).value;
    if h.timer !in s'.heap {
      forall p | p in s'.heap
        ensures s'.heap[p].sequence != h.sequence
      {
        assert p in s.heap;
      }
    }
  }

  lemma AddInLoopFares(s: State, p: Ptr, h: TimerIndex)
    requires AddTimerInLoop(s, p).Some? && Waits(s, h)
    ensures Fares(s, AddTimerInLoop(s, p).value, h)
    ensures p == h.timer ==> AddTimerInLoop(s, p).value.heap[p].owner == InSet
  {
  }

  lemma FinishFares(s: State, h: TimerIndex)
    requires Inv(s) && Enabled(s, Finish) && Waits(s, h)
    ensures FinishOne(s).Some? && Fares(s, FinishOne(s).value, h)
  {
    FinishKeepsInv(s);
    assert s.batch[0] in s.batch;
    assert h.timer != s.batch[0].timer;
  }

  lemma AddFares(s: State, e: Event, h: TimerIndex)
    requires Inv(s) && Enabled(s, e) && e.Add? && Waits(s, h)
    ensures Apply(s, e).Some? && Fares(s, Apply(s, e).value, h)
  {
    AddTimerKeepsInv(s, e.timer, e.when, e.interval, e.foreign);
  }

  /** Any step but the start of a HandleRead and the run of a functor. */
  lemma StepFares(s: State, e: Event, h: TimerIndex)
    requires Inv(s) && Enabled(s, e) && Apply(s, e).Some? && !e.BeginRead? && !e.RunPosted? && Waits(s, h)
    ensures Fares(s, Apply(s, e).value, h)
  {
    match e
    case Add(_, _, _, _) => AddFares(s, e, h);
    case Cancel(g, foreign) => if !foreign { CancelFares(s, g, h); }
    case Finish => FinishFares(s, h);
    case _ =>
  }

  lemma DoomedStep(s: State, e: Event, h: TimerIndex, k: nat, n: nat)
    requires Inv(s) && Enabled(s, e) && Apply(s, e).Some? && !e.BeginRead? && !e.RunPosted?
    requires Doomed(s, h, k) && NotCalledAfter(s, n, h.sequence)
    ensures Doomed(Apply(s, e).value, h, k) && NotCalledAfter(Apply(s, e).value, n, h.sequence)
  {
    var s' := Apply(s, e).value;
    PostingStep(s, e);
    if Gone(s, h.sequence) {
      GoneStep(s, e, h.sequence, n);
    } else {
      StepFares(s, e, h);
      NotCalledWhileWaiting(s, e, h, n);
      assert s.count <= s'.count;
      assert s'.posted[..k] == s.posted[..k];
    }
  }

  lemma NotCalledWhileWaiting(s: State, e: Event, h: TimerIndex, n: nat)
    requires Inv(s) && Enabled(s, e) && Apply(s, e).Some? && Waits(s, h) && NotCalledAfter(s, n, h.sequence)
    ensures NotCalledAfter(Apply(s, e).value, n, h.sequence)
  {
    if e.RunCallback? {
      assert s.batch[0] in s.batch;
    }
  }

  lemma RunPostedFares(s: State, h: TimerIndex)
    requires Inv(s) && Enabled(s, RunPosted) && Waits(s, h)
    ensures Apply(s, RunPosted).Some? && Fares(s, Apply(s, RunPosted).value, h)
    ensures var s' := Apply(s, RunPosted).value;
      s.posted[0] == PostedAdd(h.timer) && Waits(s', h) ==> s'.heap[h.timer].owner == InSet
  {
    StepIsSafe(s, RunPosted);
    var s1 := s.(posted := s.posted[1..]);
    match s.posted[0]
    case PostedAdd(p) => AddInLoopFares(s1, p, h);
    case PostedCancel(g) =>
      CancelTaken(s);
      CancelFares(s1, g, h);
  }

  lemma CancelRuns(s: State, h: TimerIndex)
    requires Inv(s) && Enabled(s, RunPosted) && s.posted[0] == PostedCancel(h)
    requires Waits(s, h) && s.heap[h.timer].owner == InSet
    ensures Apply(s, RunPosted).Some? && Gone(Apply(s, RunPosted).value, h.sequence)
  {
    CancelTaken(s);
    CancelIsByKey(s.(posted := s.posted[1..]), h);
  }

  /** The loop runs a functor before the cancel, or the cancel itself. */
  lemma DoomedRunPosted(s: State, h: TimerIndex, k: nat, n: nat)
    requires Inv(s) && Enabled(s, RunPosted) && Doomed(s, h, k) && NotCalledAfter(s, n, h.sequence)
    requires Apply(s, RunPosted).Some?
    ensures var s' := Apply(s, RunPosted).value;
      && NotCalledAfter(s', n, h.sequence) && h.sequence <= s'.count
      && if k == 0 then Gone(s', h.sequence) else Doomed(s', h, k - 1)
  {
    QuietStep(s, RunPosted);
    if Gone(s, h.sequence) {
      GoneStep(s, RunPosted, h.sequence, n);
    } else if k == 0 {
      CancelRuns(s, h);
    } else {
      RunPostedFares(s, h);
      PostingStep(s, RunPosted);
      HeadTaken(s.posted, k);
    }
  }

  /** No HandleRead starts in the run. */
  predicate NoRead(es: seq<Event>) {
    forall e <- es :: !e.BeginRead?
  }

  lemma {:induction false} DoomedIsGone(s: State, es: seq<Event>, s': State, h: TimerIndex, k: nat, n: nat)
    requires Inv(s) && Doomed(s, h, k) && NotCalledAfter(s, n, h.sequence)
    requires Reaches(s, es, Some(s')) && NoRead(es) && RunCount(es) > k
    ensures Inv(s') && h.sequence <= s'.count && Gone(s', h.sequence) && NotCalledAfter(s', n, h.sequence)
    decreases |es|
  {
    StepIsSafe(s, es[0]);
    var s1 := Apply(s, es[0]).value;
    if !es[0].RunPosted? {
      DoomedStep(s, es[0], h, k, n);
      DoomedIsGone(s1, es[1..], s', h, k, n);
    } else {
      DoomedRunPosted(s, h, k, n);
      if k == 0 {
        RunKeepsInv(s1, es[1..], Some(s'));
        GoneForEver(s1, es[1..], s', h.sequence, n);
        CountGrows(s1, es[1..], s');
      } else {
        DoomedIsGone(s1, es[1..], s', h, k - 1, n);
      }
    }
  }

  lemma {:induction false} CountGrows(s: State, es: seq<Event>, s': State)
    requires Reaches(s, es, Some(s'))
    ensures s.count <= s'.count
    decreases |es|
  {
    if es != [] {
      CountGrows(Apply(s, es[0]).value, es[1..], s');
    }
  }

  /** A cancel by another thread takes effect: if the timer waits when the call is made, in the set
      or in a functor that adds it, and the loop has run everything posted up to the call before a
      HandleRead starts, then the timer is gone, and from the call on its callback is never called
      again. */
  lemma ForeignCancelTakesEffect(s: State, h: TimerIndex, es: seq<Event>, mid: State, more: seq<Event>, s': State)
    requires Inv(s) && Enabled(s, Cancel(h, true)) && Waits(s, h)
    requires Reaches(Apply(s, Cancel(h, true)).value, es, Some(mid)) && NoRead(es) && RunCount(es) > |s.posted|
    requires Reaches(mid, more, Some(s'))
    ensures Gone(mid, h.sequence) && Gone(s', h.sequence) && NotCalledAfter(s', |s.ran|, h.sequence)
  {
    var s1 := Apply(s, Cancel(h, true)).value;
    StepIsSafe(s, Cancel(h, true));
    if s.heap[h.timer].owner == InPost {
      assert Is(s.heap, h.timer, InPost);
      assert PostedAdd(h.timer) in s.posted && s1.posted[..|s.posted|] == s.posted;
    }
    assert Doomed(s1, h, |s.posted|);
    DoomedIsGone(s1, es, mid, h, |s.posted|, |s.ran|);
    GoneForEver(mid, more, s', h.sequence, |s.ran|);
  }

  // What the kernel timer is armed for.

  /** The kernel timer was left alone, or armed for the earliest deadline of the set, or for a
      microsecond from now if that has passed. */
  ghost predicate ArmedAnew(s: State, s': State) {
    s'.armed != s.armed ==>
      s'.timers != [] &&
      s'.armed == Some(if s.clock < s'.timers[0].expiration then s'.timers[0].expiration else s.clock + 1)
  }

  /** So it is by every step, but for the reading of an expired one, which disarms it. */
  lemma ArmedForTheEarliest(s: State, e: Event)
    requires Inv(s) && Enabled(s, e) && Apply(s, e).Some?
    ensures var s' := Apply(s, e).value;
      || ArmedAnew(s, s')
      || (e.BeginRead? && s.armed.Some? && s.armed.value <= s.clock && s'.armed == None)
  {
    match e
    case Add(p, when, interval, foreign) => AddArms(s, p, when, interval, foreign);
    case RunPosted => PostedArms(s);
    case Cancel(h, foreign) => CancelArms(s, h);
    case Finish => FinishArms(s);
    case _ =>
  }

  lemma AddArms(s: State, p: Ptr, when: int, interval: real, foreign: bool)
    requires Inv(s) && AddTimer(s, p, when, interval, foreign).Some?
    ensures ArmedAnew(s, AddTimer(s, p, when, interval, foreign).value)
  {
    if !foreign {
      var h := TimerIndex(p, when, s.count + 1);
      ArmsForTheEarliest(Allocate(s, p, when, interval).(handles := s.handles + {h}), p);
    }
  }

  lemma CancelArms(s: State, h: TimerIndex)
    ensures CancelTimerInLoop(s, h).Some? ==> CancelTimerInLoop(s, h).value.armed == s.armed
  {
  }

  lemma PostedArms(s: State)
    requires Inv(s) && Enabled(s, RunPosted) && Apply(s, RunPosted).Some?
    ensures ArmedAnew(s, Apply(s, RunPosted).value)
  {
    var s1 := s.(posted := s.posted[1..]);
    match s.posted[0]
    case PostedAdd(p) => ArmsForTheEarliest(s1, p);
    case PostedCancel(h) => CancelArms(s1, h);
  }

  lemma FinishArms(s: State)
    requires Inv(s) && Enabled(s, Finish) && FinishOne(s).Some?
    ensures ArmedAnew(s, FinishOne(s).value)
  {
    assert s.batch[0] in s.batch;
    var p := s.batch[0].timer;
    if IsRepeated(s.heap[p]) {
      ArmsForTheEarliest(s.(heap := s.heap[p := Restart(s.heap[p], s.now)]), p);
    }
  }

  lemma ArmsForTheEarliest(s: State, p: Ptr)
    requires Sorted(s.timers)
    ensures AddTimerInLoop(s, p).Some? ==> ArmedAnew(s, AddTimerInLoop(s, p).value)
  {
    if AddTimerInLoop(s, p).Some? {
      InsertKeepsOrder(s.timers, Index(s.heap, p));
    }
  }
}
