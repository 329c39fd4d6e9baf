/** The event loop of src/reactor/EventLoop.cc: one loop thread, any number of other threads that
    queue functors or quit, and the eventfd that wakes the loop. A wakeup is two steps, the push
    under the lock and the later write to the eventfd. */
module EventLoopProtocol {
  import opened Sequences

  /** Who queued a functor: another thread, or the loop thread itself, in a channel's handler, in a
      functor that the loop runs, or before or after Loop(). */
  datatype Origin = OtherThread | Handler | LoopFunctor | OutsideLoop

  datatype Functor = Functor(id: nat, origin: Origin)

  /** Executing covers everything from the swap, or from the entry of Loop(), to the test of quit_;
      Failed is the assert at that entry. */
  datatype Phase = Starting | Polling | Handling | Executing | Stopped | Failed

  datatype State = State(
    phase: Phase,
    inFunctor: bool,           // a functor of this turn has begun
    quit: bool,
    pending: seq<Functor>,     // pendingFunctors_
    batch: seq<Functor>,       // what is left of the swapped vector
    executed: seq<Functor>,
    enqueued: seq<Functor>,    // everything QueueInLoop was given
    counter: nat,              // the value of the eventfd
    inFlight: nat)             // threads between their push (or quit_) and their write

  datatype Event =
    | Queue(id: nat)           // from another thread: the push
    | Quit                     // from another thread: the assignment
    | Wakeup                   // the write that one of them still owes
    | QueueHere(id: nat)       // QueueInLoop by the loop thread itself
    | QuitHere
    | Begin                    // the entry of Loop()
    | PollReturns
    | ReadEventfd
    | Swap
    | ExecuteOne
    | Test                     // the loop condition

  function Init(): State {
    State(Starting, false, false, [], [], [], [], 0, 0)
  }

  /** The loop thread is where it can call QueueInLoop or Quit. */
  predicate InUserCode(s: State) {
    s.phase == Starting || s.phase == Handling || s.phase == Stopped || (s.phase == Executing && s.inFunctor)
  }

  predicate Enabled(s: State, e: Event) {
    match e
    case Queue(_) | Quit => s.phase != Failed
    case Wakeup => s.phase != Failed && s.inFlight > 0
    case QueueHere(_) | QuitHere => InUserCode(s)
    case Begin => s.phase == Starting || s.phase == Stopped
    case PollReturns => s.phase == Polling
    case ReadEventfd | Swap => s.phase == Handling
    case ExecuteOne => s.phase == Executing && s.batch != []
    case Test => s.phase == Executing && s.batch == []
  }

  function OriginOf(phase: Phase, here: bool): Origin {
    if !here then OtherThread
    else if phase == Handling then Handler
    else if phase == Executing then LoopFunctor
    else OutsideLoop
  }

  /** What can fall in the midst of a turn: a call by another thread or (here) by a handler or a
      functor, or the write that another thread still owes. */
  datatype Call = QueueCall(id: nat, here: bool) | QuitCall(here: bool) | Write

  function PushedBy(c: Call, phase: Phase): seq<Functor> {
    if c.QueueCall? then [Functor(c.id, OriginOf(phase, c.here))] else []
  }

  function Pushed(cs: seq<Call>, phase: Phase): seq<Functor> {
    if cs == [] then [] else Pushed(cs[..|cs| - 1], phase) + PushedBy(cs[|cs| - 1], phase)
  }

  predicate CallsQuit(cs: seq<Call>) {
    cs != [] && (CallsQuit(cs[..|cs| - 1]) || cs[|cs| - 1].QuitCall?)
  }

  function Push(s: State, f: Functor): State {
    s.(pending := s.pending + [f], enqueued := s.enqueued + [f])
  }

  function Apply(s: State, e: Event): State
    requires Enabled(s, e)
  {
    match e
    case Queue(id) => Push(s, Functor(id, OtherThread)).(inFlight := s.inFlight + 1)
    case Quit => s.(quit := true, inFlight := s.inFlight + 1)
    case Wakeup => s.(inFlight := s.inFlight - 1, counter := s.counter + 1)
    case QueueHere(id) => Push(s, Functor(id, OriginOf(s.phase, true)))
    case QuitHere => s.(quit := true)
    case Begin => s.(phase := if s.quit then Failed else Executing)
    case PollReturns => s.(phase := Handling)
    case ReadEventfd => s.(counter := 0)
    case Swap => s.(phase := Executing, batch := s.pending, pending := s.batch)
    case ExecuteOne => s.(executed := s.executed + [s.batch[0]], batch := s.batch[1..], inFunctor := true)
    case Test => s.(phase := if s.quit then Stopped else Polling, inFunctor := false)
  }

  ghost predicate Reaches(s: State, es: seq<Event>, s': State)
    decreases |es|
  {
    if es == [] then s == s'
    else Enabled(s, es[0]) && Reaches(Apply(s, es[0]), es[1..], s')
  }

  function CountForeign(fs: seq<Functor>): nat {
    if fs == [] then 0
    else CountForeign(fs[..|fs| - 1]) + if fs[|fs| - 1].origin == OtherThread then 1 else 0
  }

  lemma CountForeignSnoc(fs: seq<Functor>, f: Functor)
    ensures CountForeign(fs + [f]) == CountForeign(fs) + if f.origin == OtherThread then 1 else 0
  {
    assert (fs + [f])[..|fs|] == fs;
  }

  lemma {:induction false} ForeignIsCounted(fs: seq<Functor>, f: Functor)
    requires f in fs && f.origin == OtherThread
    ensures CountForeign(fs) > 0
  {
    if f != fs[|fs| - 1] {
      ForeignIsCounted(fs[..|fs| - 1], f);
    }
  }

  ghost predicate Inv(s: State) {
    && s.enqueued == s.executed + s.batch + s.pending
    && (s.phase != Executing ==> s.batch == [])
    // Since the last swap, every push by another thread has left a wakeup that nobody consumed.
    && (s.phase != Handling ==>
          CountForeign(s.pending) <= s.counter + s.inFlight && forall f <- s.pending :: f.origin != Handler)
    && (s.phase == Polling && s.quit ==> s.counter + s.inFlight > 0)
    && (s.phase == Stopped ==> s.quit)
  }

  lemma PushKeepsInv(s: State, f: Functor)
    requires Inv(s) && (f.origin == Handler ==> s.phase == Handling)
    requires f.origin == OtherThread && s.phase != Handling ==> CountForeign(s.pending) < s.counter + s.inFlight
    ensures Inv(Push(s, f))
  {
    CountForeignSnoc(s.pending, f);
    Regroup(s.executed + s.batch, s.pending, [f]);
  }

  lemma BatchKeepsInv(s: State, e: Event)
    requires Inv(s) && Enabled(s, e) && (e.Swap? || e.ExecuteOne?)
    ensures Inv(Apply(s, e))
  {
    if e.ExecuteOne? {
      assert s.executed + s.batch == s.executed + [s.batch[0]] + s.batch[1..];
    } else {
      assert s.executed + s.batch + s.pending == s.executed + s.pending + s.batch;
    }
  }

  lemma StepKeepsInv(s: State, e: Event)
    requires Inv(s) && Enabled(s, e)
    ensures Inv(Apply(s, e))
  {
    match e
    case Queue(id) => PushKeepsInv(s.(inFlight := s.inFlight + 1), Functor(id, OtherThread));
    case QueueHere(id) => PushKeepsInv(s, Functor(id, OriginOf(s.phase, true)));
    case Swap | ExecuteOne => BatchKeepsInv(s, e);
    case _ =>
  }

  lemma {:induction false} RunKeepsInv(s: State, es: seq<Event>, s': State)
    requires Inv(s) && Reaches(s, es, s')
    ensures Inv(s')
    decreases |es|
  {
    if es != [] {
      StepKeepsInv(s, es[0]);
      RunKeepsInv(Apply(s, es[0]), es[1..], s');
    }
  }

  /** The calls of QueueInLoop in a run, in order. */
  function Queuings(es: seq<Event>): seq<Event>
    decreases |es|
  {
    if es == [] then [] else (if es[0].Queue? || es[0].QueueHere? then [es[0]] else []) + Queuings(es[1..])
  }

  /** The functor that a call has queued. */
  predicate QueuedBy(f: Functor, e: Event) {
    (e.Queue? || e.QueueHere?) && f.id == e.id && (f.origin == OtherThread <==> e.Queue?)
  }

  ghost predicate AllQueuedBy(fs: seq<Functor>, calls: seq<Event>) {
    |fs| == |calls| && forall i :: 0 <= i < |fs| ==> QueuedBy(fs[i], calls[i])
  }

  lemma QueuingStep(s: State, e: Event, calls: seq<Event>)
    requires Enabled(s, e) && AllQueuedBy(s.enqueued, calls)
    ensures AllQueuedBy(Apply(s, e).enqueued, if e.Queue? || e.QueueHere? then calls + [e] else calls)
  {
  }

  lemma QueuingsCons(calls: seq<Event>, es: seq<Event>)
    requires es != []
    ensures calls + Queuings(es)
         == (if es[0].Queue? || es[0].QueueHere? then calls + [es[0]] else calls) + Queuings(es[1..])
  {
  }

  lemma {:induction false} EnqueuedByCalls(s: State, calls: seq<Event>, es: seq<Event>, s': State)
    requires AllQueuedBy(s.enqueued, calls) && Reaches(s, es, s')
    ensures AllQueuedBy(s'.enqueued, calls + Queuings(es))
    decreases |es|
  {
    if es == [] {
      assert calls + [] == calls;
    } else {
      QueuingStep(s, es[0], calls);
      EnqueuedByCalls(Apply(s, es[0]), if es[0].Queue? || es[0].QueueHere? then calls + [es[0]] else calls, es[1..], s');
      QueuingsCons(calls, es);
    }
  }

  /** In every run the executed functors, then the swapped batch, then the pending ones are those of
      the calls of QueueInLoop, in the order of the calls. */
  lemma FunctorsRunInOrder(es: seq<Event>, s: State)
    requires Reaches(Init(), es, s)
    ensures AllQueuedBy(s.executed + s.batch + s.pending, Queuings(es))
  {
    RunKeepsInv(Init(), es, s);
    EnqueuedByCalls(Init(), [], es, s);
    assert [] + Queuings(es) == Queuings(es);
  }

  // The eventfd and quit_, told from the events.

  /** The writes to the eventfd since it was last read, n of them before the run. */
  function WritesSinceRead(n: nat, es: seq<Event>): nat
    decreases |es|
  {
    if es == [] then n
    else WritesSinceRead(if es[0].ReadEventfd? then 0 else if es[0].Wakeup? then n + 1 else n, es[1..])
  }

  /** The writes that other threads still owe for what they have queued or quit. */
  function WritesOwed(n: int, es: seq<Event>): int
    decreases |es|
  {
    if es == [] then n
    else WritesOwed(if es[0].Queue? || es[0].Quit? then n + 1 else if es[0].Wakeup? then n - 1 else n, es[1..])
  }

  predicate QuitIn(es: seq<Event>) {
    exists e <- es :: e.Quit? || e.QuitHere?
  }

  lemma {:induction false} CountsFollow(s: State, es: seq<Event>, s': State)
    requires Reaches(s, es, s')
    ensures s'.counter == WritesSinceRead(s.counter, es) && s'.inFlight == WritesOwed(s.inFlight, es)
    ensures s'.quit <==> s.quit || QuitIn(es)
    decreases |es|
  {
    if es != [] {
      CountsFollow(Apply(s, es[0]), es[1..], s');
      SomebodyQuits(es);
    }
  }

  lemma SomebodyQuits(es: seq<Event>)
    requires es != []
    ensures QuitIn(es) <==> es[0].Quit? || es[0].QuitHere? || QuitIn(es[1..])
  {
    assert es == [es[0]] + es[1..];
  }

  /** In every run the eventfd is readable exactly if it was written since it was last read, so that a
      loop that has read it can sleep again; every call of another thread owes one write until it
      has made it; and quit_ is set exactly if somebody has called Quit. */
  lemma EventfdCountsWrites(es: seq<Event>, s: State)
    requires Reaches(Init(), es, s)
    ensures s.counter == WritesSinceRead(0, es) && s.inFlight == WritesOwed(0, es) && (s.quit <==> QuitIn(es))
  {
    CountsFollow(Init(), es, s);
  }

  /** In a run that starts with quit_ as given, Loop() is entered with quit_ set. */
  predicate EntersAfterQuit(quit: bool, es: seq<Event>)
    decreases |es|
  {
    es != [] && ((es[0].Begin? && quit) || EntersAfterQuit(quit || es[0].Quit? || es[0].QuitHere?, es[1..]))
  }

  /** The assert of Loop() fails in exactly the runs in which Loop() is entered after a Quit by any
      thread, be it the first time or again: quit_ is never cleared. */
  lemma {:induction false} EntryFailsAfterQuit(s: State, es: seq<Event>, s': State)
    requires Inv(s) && s.phase != Failed && Reaches(s, es, s')
    ensures s'.phase == Failed <==> EntersAfterQuit(s.quit, es)
    decreases |es|
  {
    if es != [] {
      StepKeepsInv(s, es[0]);
      var s1 := Apply(s, es[0]);
      if s1.phase != Failed {
        EntryFailsAfterQuit(s1, es[1..], s');
      }
    }
  }

  ghost predicate WakeupAssured(s: State) {
    s.counter > 0 || s.inFlight > 0
  }

  /** In every run, a loop that polls with a functor of another thread pending, or after another
      thread's Quit, has a readable eventfd or a write on its way; and a functor queued by a
      channel handler is never left pending across a poll. */
  lemma PollIsWoken(es: seq<Event>, s: State)
    requires Reaches(Init(), es, s) && s.phase == Polling
    ensures (exists f :: f in s.pending && f.origin == OtherThread) || s.quit ==> WakeupAssured(s)
    ensures forall f <- s.pending :: f.origin != Handler
  {
    RunKeepsInv(Init(), es, s);
    if f :| f in s.pending && f.origin == OtherThread {
      ForeignIsCounted(s.pending, f);
    }
  }

  ghost predicate SleepsOnWork(es: seq<Event>, f: Functor) {
    exists s :: Reaches(Init(), es, s) && s.phase == Polling && !WakeupAssured(s) && f in s.pending
  }

  lemma Then(s: State, e: Event, es: seq<Event>, s': State)
    requires Enabled(s, e) && Reaches(Apply(s, e), es, s')
    ensures Reaches(s, [e] + es, s')
  {
    assert ([e] + es)[1..] == es;
  }

  /** A functor queued before Loop() is still pending in the first poll. */
  lemma FirstPoll(id: nat) returns (es: seq<Event>, s: State)
    ensures Reaches(Init(), es, s) && s.phase == Polling && s.pending == [Functor(id, OutsideLoop)]
    ensures s.executed == [] && !s.quit && !WakeupAssured(s)
  {
    var s1 := Apply(Init(), QueueHere(id));
    var s2 := Apply(s1, Begin);
    s := Apply(s2, Test);
    assert Reaches(s, [], s);
    Then(s2, Test, [], s);
    Then(s1, Begin, [Test] + [], s);
    es := [QueueHere(id)] + ([Begin] + ([Test] + []));
    Then(Init(), QueueHere(id), [Begin] + ([Test] + []), s);
  }

  /** From a state that executes the last functor of a batch: what that functor queues is still
      pending in the next poll. */
  lemma NestedFunctorSleeps(s0: State, es: seq<Event>, id: nat)
    requires Reaches(Init(), es, s0) && s0.phase == Executing && s0.inFunctor && s0.batch == [] && !s0.quit
    requires !WakeupAssured(s0)
    ensures exists es' :: SleepsOnWork(es', Functor(id, LoopFunctor))
  {
    var f := Functor(id, LoopFunctor);
    var s1 := Apply(s0, QueueHere(id));
    var s := Apply(s1, Test);
    assert Reaches(s, [], s);
    Then(s1, Test, [], s);
    Then(s0, QueueHere(id), [Test] + [], s);
    Joined(Init(), es, s0, [QueueHere(id)] + ([Test] + []), s);
    assert s.pending[|s.pending| - 1] == f && f in s.pending;
    assert SleepsOnWork(es + ([QueueHere(id)] + ([Test] + [])), f);
  }

  lemma {:induction false} Joined(s: State, es: seq<Event>, mid: State, more: seq<Event>, s': State)
    requires Reaches(s, es, mid) && Reaches(mid, more, s')
    ensures Reaches(s, es + more, s')
    decreases |es|
  {
    if es == [] {
      assert es + more == more;
    } else {
      Joined(Apply(s, es[0]), es[1..], mid, more, s');
      assert es + more == [es[0]] + (es[1..] + more);
      Then(s, es[0], es[1..] + more, s');
    }
  }

  /** That functor runs once the poll has timed out. */
  lemma FunctorRuns() returns (es: seq<Event>, s: State)
    ensures Reaches(Init(), es, s) && s.phase == Executing && s.inFunctor && s.batch == [] && !s.quit
    ensures !WakeupAssured(s) && |s.executed| == 1
  {
    var before, s0 := FirstPoll(0);
    var s1 := Apply(s0, PollReturns);
    var s2 := Apply(s1, Swap);
    s := Apply(s2, ExecuteOne);
    assert Reaches(s, [], s);
    Then(s2, ExecuteOne, [], s);
    Then(s1, Swap, [ExecuteOne] + [], s);
    Then(s0, PollReturns, [Swap] + ([ExecuteOne] + []), s);
    es := before + ([PollReturns] + ([Swap] + ([ExecuteOne] + [])));
    Joined(Init(), before, s0, [PollReturns] + ([Swap] + ([ExecuteOne] + [])), s);
  }

  /** A functor can be left waiting for the poll to time out exactly when the loop thread itself
      queued it other than in a handler: in a functor that the loop ran, or before Loop(). For its
      own thread QueueInLoop writes no wakeup. */
  lemma OnlyOwnFunctorsWait(f: Functor)
    ensures (exists es :: SleepsOnWork(es, f)) <==> f.origin == LoopFunctor || f.origin == OutsideLoop
  {
    match f.origin
    case LoopFunctor =>
      var es, s := FunctorRuns();
      NestedFunctorSleeps(s, es, f.id);
    case OutsideLoop =>
      var es, s := FirstPoll(f.id);
      assert f in s.pending && SleepsOnWork(es, f);
    case OtherThread =>
      forall es, s | Reaches(Init(), es, s) && s.phase == Polling && f in s.pending
        ensures WakeupAssured(s)
      {
        PollIsWoken(es, s);
      }
    case Handler =>
      forall es, s | Reaches(Init(), es, s) && s.phase == Polling
        ensures f !in s.pending
      {
        PollIsWoken(es, s);
      }
  }
}

/** The loop object. `here` says whether the caller is the loop thread. */
module EventLoops {
  import opened Sequences
  import P = EventLoopProtocol

  class EventLoop {
    var phase: P.Phase
    var inFunctor: bool
    var quit: bool
    var pendingFunctors: seq<P.Functor>
    var functors: seq<P.Functor>
    var eventfd: nat
    ghost var executed: seq<P.Functor>
    ghost var enqueued: seq<P.Functor>
    var inFlight: nat

    ghost function Model(): P.State
      reads this
    {
      P.State(phase, inFunctor, quit, pendingFunctors, functors, executed, enqueued, eventfd, inFlight)
    }

    ghost predicate Valid()
      reads this
    {
      P.Inv(Model())
    }

    constructor ()
      ensures Valid() && Model() == P.Init()
    {
      phase, inFunctor, quit, pendingFunctors, functors := P.Starting, false, false, [], [];
      eventfd, inFlight, executed, enqueued := 0, 0, [], [];
    }

    /** RunInLoop: at once in the loop thread, queued otherwise. */
    method RunInLoop(id: nat, here: bool) returns (runNow: bool)
      requires Valid() && phase != P.Failed && (here ==> P.InUserCode(Model()))
      modifies this
      ensures Valid() && runNow == here
      ensures if here then Model() == old(Model()) else Model() == P.Apply(old(Model()), P.Queue(id))
    {
      if here { return true; }
      QueueInLoop(id, here);
      return false;
    }

    /** QueueInLoop up to its unlock; a foreign caller then owes a Wakeup. */
    method QueueInLoop(id: nat, here: bool)
      requires Valid() && phase != P.Failed && (here ==> P.InUserCode(Model()))
      modifies this`pendingFunctors, this`enqueued, this`inFlight
      ensures Valid() && Model() == P.Apply(old(Model()), if here then P.QueueHere(id) else P.Queue(id))
      ensures pendingFunctors == old(pendingFunctors) + [P.Functor(id, P.OriginOf(old(phase), here))]
    {
      P.StepKeepsInv(Model(), if here then P.QueueHere(id) else P.Queue(id));
      var f := P.Functor(id, P.OriginOf(phase, here));
      pendingFunctors := pendingFunctors + [f];
      enqueued := enqueued + [f];
      if !here {
        inFlight := inFlight + 1;
      }
    }

    method Quit(here: bool)
      requires Valid() && phase != P.Failed && (here ==> P.InUserCode(Model()))
      modifies this`quit, this`inFlight
      ensures Valid() && Model() == P.Apply(old(Model()), if here then P.QuitHere else P.Quit)
    {
      P.StepKeepsInv(Model(), if here then P.QuitHere else P.Quit);
      quit := true;
      if !here {
        inFlight := inFlight + 1;
      }
    }

    method Wakeup()
      requires Valid() && phase != P.Failed && inFlight > 0
      modifies this`eventfd, this`inFlight
      ensures Valid() && Model() == P.Apply(old(Model()), P.Wakeup)
    {
      P.StepKeepsInv(Model(), P.Wakeup);
      inFlight := inFlight - 1;
      eventfd := eventfd + 1;
    }

    method HandleEventfdRead()
      requires Valid() && phase == P.Handling
      modifies this
      ensures Valid() && Model() == P.Apply(old(Model()), P.ReadEventfd)
    {
      P.StepKeepsInv(Model(), P.ReadEventfd);
      eventfd := 0;
    }

    /** The entry of Loop(); false if its assert fails. */
    method Begin() returns (ok: bool)
      requires Valid() && (phase == P.Starting || phase == P.Stopped)
      modifies this
      ensures Valid() && Model() == P.Apply(old(Model()), P.Begin) && ok == (phase != P.Failed)
    {
      P.StepKeepsInv(Model(), P.Begin);
      ok := !quit;
      phase := if quit then P.Failed else P.Executing;
    }

    method Test() returns (goesOn: bool)
      requires Valid() && phase == P.Executing && functors == []
      modifies this
      ensures Valid() && Model() == P.Apply(old(Model()), P.Test) && goesOn == (phase == P.Polling)
    {
      P.StepKeepsInv(Model(), P.Test);
      goesOn := !quit;
      phase, inFunctor := if quit then P.Stopped else P.Polling, false;
    }

    /** One turn of Loop(): poll, let the eventfd be read if it is among the active channels, run
        the pending functors, test quit_. The calls of `early` fall before the eventfd is read,
        those of `late` between that and the swap, and those of running[i] while the i-th functor
        runs: the loop thread's own, and those of other threads. */
    method Turn(eventfdActive: bool, early: seq<P.Call>, late: seq<P.Call>, running: seq<seq<P.Call>>)
      returns (goesOn: bool)
      requires Valid() && phase == P.Polling
      modifies this
      ensures Valid() && goesOn == !quit && phase == (if quit then P.Stopped else P.Polling)
      ensures executed == old(executed) + (old(pendingFunctors) + P.Pushed(early, P.Handling)
                          + P.Pushed(late, P.Handling))
      ensures old(quit) || P.CallsQuit(early) || P.CallsQuit(late) ==> !goesOn
      ensures forall f <- pendingFunctors :: f.origin != P.Handler
    {
      HandleEvents(eventfdActive, early, late);
      ExecutePendingFunctors(running);
      goesOn := Test();
    }

    method HandleEvents(eventfdActive: bool, early: seq<P.Call>, late: seq<P.Call>)
      requires Valid() && phase == P.Polling
      modifies this
      ensures Valid() && phase == P.Handling && executed == old(executed)
      ensures quit == (old(quit) || P.CallsQuit(early) || P.CallsQuit(late))
      ensures pendingFunctors == old(pendingFunctors) + P.Pushed(early, P.Handling) + P.Pushed(late, P.Handling)
    {
      P.StepKeepsInv(Model(), P.PollReturns);
      phase := P.Handling;
      Calls(early);
      if eventfdActive {
        HandleEventfdRead();
      }
      Calls(late);
    }

    method ExecutePendingFunctors(running: seq<seq<P.Call>>)
      requires Valid() && phase == P.Handling
      modifies this
      ensures Valid() && phase == P.Executing && functors == [] && (old(quit) ==> quit)
      ensures executed == old(executed) + old(pendingFunctors)
    {
      Swap();
      var i := 0;
      while |functors| != 0
        invariant Valid() && phase == P.Executing && (old(quit) ==> quit)
        invariant executed + functors == old(executed) + old(pendingFunctors)
        decreases |functors|
      {
        ExecuteOne();
        if i < |running| {
          Calls(running[i]);
        }
        i := i + 1;
      }
    }

    method Swap()
      requires Valid() && phase == P.Handling
      modifies this
      ensures Valid() && Model() == P.Apply(old(Model()), P.Swap)
    {
      P.StepKeepsInv(Model(), P.Swap);
      functors, pendingFunctors := pendingFunctors, functors;
      phase := P.Executing;
    }

    method ExecuteOne()
      requires Valid() && phase == P.Executing && functors != []
      modifies this`executed, this`functors, this`inFunctor
      ensures Valid() && inFunctor && executed + functors == old(executed) + old(functors) && |functors| < |old(functors)|
    {
      P.StepKeepsInv(Model(), P.ExecuteOne);
      executed := executed + [functors[0]];
      functors := functors[1..];
      inFunctor := true;
    }

    method Calls(cs: seq<P.Call>)
      requires Valid() && P.InUserCode(Model())
      modifies this`pendingFunctors, this`enqueued, this`quit, this`inFlight, this`eventfd
      ensures Valid() && pendingFunctors == old(pendingFunctors) + P.Pushed(cs, phase)
      ensures quit == (old(quit) || P.CallsQuit(cs))
      decreases |cs|
    {
      if cs != [] {
        Regroup(pendingFunctors, P.Pushed(cs[..|cs| - 1], phase), P.PushedBy(cs[|cs| - 1], phase));
        Calls(cs[..|cs| - 1]);
        Call(cs[|cs| - 1]);
      }
    }

    /** A Write that nobody owes is passed over. */
    method Call(c: P.Call)
      requires Valid() && P.InUserCode(Model())
      modifies this`pendingFunctors, this`enqueued, this`quit, this`inFlight, this`eventfd
      ensures Valid() && pendingFunctors == old(pendingFunctors) + P.PushedBy(c, phase)
      ensures quit == (old(quit) || c.QuitCall?)
    {
      match c
      case QueueCall(id, here) => QueueInLoop(id, here);
      case QuitCall(here) => Quit(here);
      case Write =>
        if inFlight > 0 {
          Wakeup();
        }
    }
  }
}
