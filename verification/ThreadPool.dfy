/** The thread pool of src/thread/ThreadPool.cc as a monitor, one critical section per event. */
module ThreadPoolProtocol {
  import opened Conditions

  datatype State<T> = State(
    maxQueueSize: int,         // zero or negative: no bound
    started: bool,
    threads: nat,              // threads_.size(); the workers are the threads below it
    running: bool,
    queue: seq<T>,
    notEmpty: Condition,
    notFull: Condition,
    holding: map<Tid, T>,      // the argument of every Run that is inside notFull_.Wait()
    busy: set<Tid>,            // workers running a job, or still the init callback
    direct: seq<T>,            // run by the caller, for want of workers
    accepted: seq<T>,          // everything ever pushed on the queue
    taken: seq<T>)             // everything ever handed to a worker

  datatype Event<T> =
    | Start(numThreads: nat)
    | RunEnter(t: Tid, job: T, wake: set<Tid>)
    | RunResume(t: Tid, wake: set<Tid>)
    | RunSpurious(t: Tid)
    | TakeEnter(t: Tid, wake: set<Tid>)
    | TakeResume(t: Tid, wake: set<Tid>)
    | TakeSpurious(t: Tid)
    | Stop

  function Init<T>(maxQueueSize: int): State<T> {
    State(maxQueueSize, false, 0, false, [], NOBODY, NOBODY, map[], {}, [], [], [])
  }

  predicate QueueIsFull<T>(s: State<T>) {
    s.maxQueueSize > 0 && |s.queue| >= s.maxQueueSize
  }

  predicate Outside<T>(s: State<T>, t: Tid) {
    !s.notEmpty.Inside(t) && !s.notFull.Inside(t)
  }

  /** Run after the lock is taken: park, give up because of Stop, or enqueue and signal. */
  function RunLocked<T>(s: State<T>, t: Tid, job: T, wake: set<Tid>): State<T> {
    if QueueIsFull(s) && s.running then
      s.(notFull := s.notFull.Wait(t), holding := s.holding[t := job])
    else if !s.running then s
    else
      s.(queue := s.queue + [job], accepted := s.accepted + [job], notEmpty := s.notEmpty.Notify(wake))
  }

  /** Take after the lock is taken: park, return an empty functor because of Stop, or dequeue;
      producers are signalled only when the queue is bounded. */
  function TakeLocked<T>(s: State<T>, t: Tid, wake: set<Tid>): State<T> {
    if |s.queue| == 0 && s.running then
      s.(notEmpty := s.notEmpty.Wait(t))
    else if !s.running then s
    else
      s.(queue := s.queue[1..], taken := s.taken + [s.queue[0]], busy := s.busy + {t},
         notFull := if s.maxQueueSize > 0 then s.notFull.Notify(wake) else s.notFull)
  }

  /** A Run that comes back from notFull_.Wait() with the lock. */
  function Unpark<T>(s: State<T>, t: Tid): State<T> {
    s.(notFull := s.notFull.Resume(t), holding := s.holding - {t})
  }

  /** A worker that takes again is done with its job. */
  function Done<T>(s: State<T>, t: Tid): State<T> {
    s.(busy := s.busy - {t})
  }

  function Workers(n: nat): (ts: set<Tid>)
    ensures forall t: Tid :: t in ts <==> t < n
  {
    if n == 0 then {} else Workers(n - 1) + {n - 1}
  }

  /** The pool is started once and never restarted; only workers take, and they call Run only from
      inside a job or the init callback. */
  predicate Enabled<T>(s: State<T>, e: Event<T>) {
    match e
    case Start(_) => !s.started
    case RunEnter(t, _, wake) => Outside(s, t) && s.notEmpty.MayWake(wake) && (t < s.threads ==> t in s.busy)
    case RunResume(t, wake) => t in s.notFull.woken && t in s.holding && s.notEmpty.MayWake(wake)
    case RunSpurious(t) => t in s.notFull.waiting
    case TakeEnter(t, wake) => t < s.threads && Outside(s, t) && s.notFull.MayWake(wake)
    case TakeResume(t, wake) => t in s.notEmpty.woken && s.notFull.MayWake(wake)
    case TakeSpurious(t) => t in s.notEmpty.waiting
    case Stop => s.started
  }

  function Apply<T>(s: State<T>, e: Event<T>): State<T>
    requires Enabled(s, e)
  {
    match e
    case Start(n) => s.(started := true, threads := n, busy := Workers(n), running := true)
    case RunEnter(t, job, wake) =>
      if s.threads == 0 then s.(direct := s.direct + [job]) else RunLocked(s, t, job, wake)
    case RunResume(t, wake) => RunLocked(Unpark(s, t), t, s.holding[t], wake)
    case RunSpurious(t) => s.(notFull := s.notFull.Notify({t}))
    case TakeEnter(t, wake) => TakeLocked(Done(s, t), t, wake)
    case TakeResume(t, wake) => TakeLocked(s.(notEmpty := s.notEmpty.Resume(t)), t, wake)
    case TakeSpurious(t) => s.(notEmpty := s.notEmpty.Notify({t}))
    case Stop => s.(running := false, notEmpty := s.notEmpty.NotifyAll(), notFull := s.notFull.NotifyAll())
  }

  ghost predicate Reaches<T(!new)>(s: State<T>, es: seq<Event<T>>, s': State<T>)
    decreases |es|
  {
    if es == [] then s == s'
    else Enabled(s, es[0]) && Reaches(Apply(s, es[0]), es[1..], s')
  }

  ghost predicate Shape<T>(s: State<T>) {
    && s.notEmpty.Valid() && s.notFull.Valid()
    && (forall t :: !(s.notEmpty.Inside(t) && s.notFull.Inside(t)))
    && (forall t :: t in s.holding <==> s.notFull.Inside(t))
    && s.accepted == s.taken + s.queue
    && (s.maxQueueSize > 0 ==> |s.queue| <= s.maxQueueSize)
    && (s.notFull.waiting != {} ==> s.maxQueueSize > 0)
    && (!s.running ==> s.notEmpty.waiting == {} && s.notFull.waiting == {})
    && (s.running || s.threads > 0 ==> s.started)
    && (forall t <- s.notEmpty.waiting :: t < s.threads) && (forall t <- s.notEmpty.woken :: t < s.threads)
  }

  ghost predicate Inv<T>(s: State<T>) {
    && Shape(s)
    && Covered(s.notEmpty, |s.queue|)
    && Covered(s.notFull, s.maxQueueSize - |s.queue|)
  }

  lemma RunLockedKeepsInv<T>(s: State<T>, t: Tid, job: T, wake: set<Tid>)
    requires Shape(s) && Outside(s, t) && s.notEmpty.MayWake(wake)
    requires Covered(s.notEmpty, |s.queue|)
    requires !QueueIsFull(s) ==> Covered(s.notFull, s.maxQueueSize - |s.queue| - 1)
    ensures Inv(RunLocked(s, t, job, wake))
  {
    if s.running && !QueueIsFull(s) {
      NotifyCovers(s.notEmpty, wake, |s.queue|);
      assert s.taken + (s.queue + [job]) == (s.taken + s.queue) + [job];
    }
  }

  lemma TakeLockedKeepsInv<T>(s: State<T>, t: Tid, wake: set<Tid>)
    requires Shape(s) && t < s.threads && Outside(s, t) && s.notFull.MayWake(wake)
    requires Covered(s.notFull, s.maxQueueSize - |s.queue|)
    requires |s.queue| > 0 ==> Covered(s.notEmpty, |s.queue| - 1)
    ensures Inv(TakeLocked(s, t, wake))
  {
    if s.running && |s.queue| != 0 {
      NotifyCovers(s.notFull, wake, s.maxQueueSize - |s.queue|);
      assert s.taken + s.queue == (s.taken + [s.queue[0]]) + s.queue[1..];
    }
  }

  lemma WakeStepKeepsInv<T>(s: State<T>, e: Event<T>)
    requires Inv(s) && Enabled(s, e) && (e.RunSpurious? || e.TakeSpurious?)
    ensures Inv(Apply(s, e))
  {
    if e.RunSpurious? {
      ReleaseCovers(s.notFull, e.t, s.maxQueueSize - |s.queue|);
    } else {
      ReleaseCovers(s.notEmpty, e.t, |s.queue|);
    }
  }

  lemma SwitchKeepsInv<T>(s: State<T>, e: Event<T>)
    requires Inv(s) && Enabled(s, e) && (e.Start? || e.Stop?)
    ensures Inv(Apply(s, e))
  {
    assert forall t :: s.notEmpty.NotifyAll().Inside(t) <==> s.notEmpty.Inside(t);
    assert forall t :: s.notFull.NotifyAll().Inside(t) <==> s.notFull.Inside(t);
  }

  lemma TakeStepKeepsInv<T>(s: State<T>, e: Event<T>)
    requires Inv(s) && Enabled(s, e) && (e.TakeEnter? || e.TakeResume?)
    ensures Inv(Apply(s, e))
  {
    if e.TakeEnter? {
      TakeLockedKeepsInv(Done(s, e.t), e.t, e.wake);
    } else {
      ResumeCovers(s.notEmpty, e.t, |s.queue|);
      TakeLockedKeepsInv(s.(notEmpty := s.notEmpty.Resume(e.t)), e.t, e.wake);
    }
  }

  lemma StepKeepsInv<T>(s: State<T>, e: Event<T>)
    requires Inv(s) && Enabled(s, e)
    ensures Inv(Apply(s, e))
  {
    match e
    case Start(_) | Stop =>
      SwitchKeepsInv(s, e);
    case RunEnter(t, job, wake) =>
      RunLockedKeepsInv(s, t, job, wake);
    case RunResume(t, wake) =>
      ResumeCovers(s.notFull, t, s.maxQueueSize - |s.queue|);
      RunLockedKeepsInv(Unpark(s, t), t, s.holding[t], wake);
    case RunSpurious(_) | TakeSpurious(_) =>
      WakeStepKeepsInv(s, e);
    case TakeEnter(_, _) | TakeResume(_, _) =>
      TakeStepKeepsInv(s, e);
  }

  lemma {:induction false} RunKeepsInv<T(!new)>(s: State<T>, es: seq<Event<T>>, s': State<T>)
    requires Inv(s) && Reaches(s, es, s')
    ensures Inv(s') && s'.maxQueueSize == s.maxQueueSize
    decreases |es|
  {
    if es != [] {
      StepKeepsInv(s, es[0]);
      RunKeepsInv(Apply(s, es[0]), es[1..], s');
    }
  }

  // The same pool as its callers see it, told from the events alone.

  /** The argument of each thread's last Run; what was queued, handed to workers and run at once. */
  datatype Ledger<T> = Ledger(
    threads: nat, running: bool, asked: map<Tid, T>, accepted: seq<T>, taken: seq<T>, direct: seq<T>)

  function Blank<T>(): Ledger<T> {
    Ledger(0, false, map[], [], [], [])
  }

  /** A Run with the lock queues its job while the pool runs and has room. */
  function NoteRun<T>(bound: int, l: Ledger<T>, job: T): Ledger<T> {
    if l.running && (bound <= 0 || |l.accepted| < |l.taken| + bound) then l.(accepted := l.accepted + [job]) else l
  }

  /** A worker with the lock gets the next job while the pool runs and has one. */
  function NoteTake<T>(l: Ledger<T>): Ledger<T> {
    if l.running && |l.taken| < |l.accepted| then l.(taken := l.taken + [l.accepted[|l.taken|]]) else l
  }

  function Note<T>(bound: int, l: Ledger<T>, e: Event<T>): Ledger<T> {
    match e
    case Start(n) => l.(threads := n, running := true)
    case Stop => l.(running := false)
    case RunEnter(t, job, _) =>
      if l.threads == 0 then l.(direct := l.direct + [job]) else NoteRun(bound, l.(asked := l.asked[t := job]), job)
    case RunResume(t, _) => if t in l.asked then NoteRun(bound, l, l.asked[t]) else l
    case TakeEnter(_, _) => NoteTake(l)
    case TakeResume(_, _) => NoteTake(l)
    case RunSpurious(_) => l
    case TakeSpurious(_) => l
  }

  function Noted<T>(bound: int, l: Ledger<T>, es: seq<Event<T>>): Ledger<T>
    decreases |es|
  {
    if es == [] then l else Noted(bound, Note(bound, l, es[0]), es[1..])
  }

  ghost predicate Agrees<T>(s: State<T>, l: Ledger<T>) {
    && s.threads == l.threads && s.running == l.running
    && s.accepted == l.accepted && s.taken == l.taken && s.direct == l.direct
    && (forall t <- s.holding :: t in l.asked && s.holding[t] == l.asked[t])
  }

  lemma StepAgrees<T>(s: State<T>, l: Ledger<T>, e: Event<T>)
    requires Inv(s) && Enabled(s, e) && Agrees(s, l)
    ensures Agrees(Apply(s, e), Note(s.maxQueueSize, l, e))
  {
    assert |s.accepted| == |s.taken| + |s.queue|;
    assert s.queue != [] ==> s.accepted[|s.taken|] == s.queue[0];
  }

  lemma {:induction false} RunAgrees<T(!new)>(s: State<T>, l: Ledger<T>, es: seq<Event<T>>, s': State<T>)
    requires Inv(s) && Agrees(s, l) && Reaches(s, es, s')
    ensures Inv(s') && s'.maxQueueSize == s.maxQueueSize && Agrees(s', Noted(s.maxQueueSize, l, es))
    decreases |es|
  {
    if es != [] {
      StepKeepsInv(s, es[0]);
      StepAgrees(s, l, es[0]);
      RunAgrees(Apply(s, es[0]), Note(s.maxQueueSize, l, es[0]), es[1..], s');
    }
  }

  /** In every run the queue holds the jobs that Run was called with and queued, but for those handed
      to workers, in order; without threads jobs are run by their callers; and every Run that is
      inside its wait still holds the job it was called with. */
  lemma PoolFollowsItsCalls<T(!new)>(maxQueueSize: int, es: seq<Event<T>>, s: State<T>)
    requires Reaches(Init(maxQueueSize), es, s)
    ensures var l := Noted(maxQueueSize, Blank(), es);
      && s.direct == l.direct && s.taken == l.taken && l.accepted == l.taken + s.queue
      && forall t :: s.notFull.Inside(t) ==> t in s.holding && t in l.asked && s.holding[t] == l.asked[t]
  {
    RunAgrees(Init(maxQueueSize), Blank(), es, s);
  }

  /** In every run the jobs handed to workers, followed by the queue, are the jobs queued by the Run
      events: each is taken once, in FIFO order, and a positive bound is never exceeded. */
  lemma JobsAreConserved<T(!new)>(maxQueueSize: int, es: seq<Event<T>>, s: State<T>)
    requires Reaches(Init(maxQueueSize), es, s)
    ensures s.accepted == s.taken + s.queue && s.accepted == Noted(maxQueueSize, Blank(), es).accepted
    ensures maxQueueSize > 0 ==> |s.accepted| - |s.taken| <= maxQueueSize
  {
    RunAgrees(Init(maxQueueSize), Blank(), es, s);
  }

  /** In every run, while a worker is parked the queued jobs are at most the workers already
      released; dually for blocked callers. So a bounded pool never has both kinds parked with
      nobody released. */
  lemma NoLostWakeup<T(!new)>(maxQueueSize: int, es: seq<Event<T>>, s: State<T>)
    requires Reaches(Init(maxQueueSize), es, s)
    ensures s.notEmpty.waiting != {} ==> |s.queue| <= |s.notEmpty.woken|
    ensures s.notFull.waiting != {} ==> 0 < maxQueueSize <= |s.queue| + |s.notFull.woken|
    ensures s.notEmpty.waiting != {} && s.notFull.waiting != {} ==>
              s.notEmpty.woken != {} || s.notFull.woken != {}
  {
    RunKeepsInv(Init(maxQueueSize), es, s);
  }

  ghost predicate SameJobs<T>(s: State<T>, s': State<T>) {
    s'.queue == s.queue && s'.accepted == s.accepted && s'.taken == s.taken
  }

  lemma StoppedStep<T>(s: State<T>, e: Event<T>)
    requires Inv(s) && s.started && !s.running && Enabled(s, e)
    ensures SameJobs(s, Apply(s, e)) && Apply(s, e).started && !Apply(s, e).running
    ensures e.RunResume? || e.TakeResume? ==> Outside(Apply(s, e), e.t)
  {
  }

  /** Once Stop has run, no thread is parked in any later state, nothing is queued or taken any
      more (what was still queued is never run), and every thread that was inside a wait leaves
      the pool with its next step. */
  lemma {:induction false} NothingHappensAfterStop<T(!new)>(s: State<T>, es: seq<Event<T>>, s': State<T>)
    requires Inv(s) && s.started && !s.running && Reaches(s, es, s')
    ensures s'.notEmpty.waiting == {} && s'.notFull.waiting == {}
    ensures SameJobs(s, s')
    ensures forall e :: Enabled(s', e) && (e.RunResume? || e.TakeResume?) ==> Outside(Apply(s', e), e.t)
    decreases |es|
  {
    if es != [] {
      StepKeepsInv(s, es[0]);
      StoppedStep(s, es[0]);
      NothingHappensAfterStop(Apply(s, es[0]), es[1..], s');
    }
  }

  /** The same for whole runs that contain a Stop. */
  lemma {:induction false} StopIsFinal<T(!new)>(
    maxQueueSize: int, before: seq<Event<T>>, mid: State<T>, after: seq<Event<T>>, s: State<T>)
    requires Reaches(Init(maxQueueSize), before, mid) && Enabled(mid, Stop)
    requires Reaches(Apply(mid, Stop), after, s)
    ensures s.notEmpty.waiting == {} && s.notFull.waiting == {} && SameJobs(mid, s)
  {
    RunKeepsInv(Init(maxQueueSize), before, mid);
    StepKeepsInv(mid, Stop);
    NothingHappensAfterStop(Apply(mid, Stop), after, s);
  }

  // Workers that wait for each other.

  /** Every worker is parked inside Run, and none of those parked there is on its way out. */
  ghost predicate Starved<T>(s: State<T>) {
    s.threads > 0 && s.running && s.notFull.woken == {} && forall t: Tid :: t < s.threads ==> t in s.notFull.waiting
  }

  /** The queue is full, and every worker is inside Run: waiting for room that only workers make. */
  ghost predicate Jammed<T>(s: State<T>) {
    s.threads > 0 && s.running && QueueIsFull(s) && forall t: Tid :: t < s.threads ==> t in s.holding
  }

  lemma StarvedIsJammed<T>(s: State<T>)
    requires Inv(s) && Starved(s)
    ensures Jammed(s)
  {
    assert 0 in s.notFull.waiting;
  }

  lemma WorkersAreInside<T>(s: State<T>, t: Tid)
    requires Inv(s) && Jammed(s) && t < s.threads
    ensures s.notFull.Inside(t) && !s.notEmpty.Inside(t)
  {
    assert t in s.holding;
  }

  lemma JammedStep<T>(s: State<T>, e: Event<T>)
    requires Inv(s) && Jammed(s) && Enabled(s, e) && !e.Stop?
    ensures Jammed(Apply(s, e)) && Apply(s, e).taken == s.taken
  {
    match e
    case RunResume(t, _) => assert Apply(s, e).holding == s.holding;
    case TakeEnter(t, _) => WorkersAreInside(s, t);
    case TakeResume(t, _) => WorkersAreInside(s, t);
    case _ =>
  }

  lemma {:induction false} JamsLast<T(!new)>(s: State<T>, es: seq<Event<T>>, s': State<T>)
    requires Inv(s) && Jammed(s) && Reaches(s, es, s') && forall e <- es :: !e.Stop?
    ensures Jammed(s') && s'.taken == s.taken
    decreases |es|
  {
    if es != [] {
      JammedStep(s, es[0]);
      StepKeepsInv(s, es[0]);
      JamsLast(Apply(s, es[0]), es[1..], s');
    }
  }

  /** No job is taken any more, whatever else happens short of Stop: the queue stays full and the
      workers stay inside Run, spurious wakeups and all. */
  lemma StarvedForEver<T(!new)>(s: State<T>, es: seq<Event<T>>, s': State<T>)
    requires Inv(s) && Starved(s) && Reaches(s, es, s') && forall e <- es :: !e.Stop?
    ensures Jammed(s') && s'.taken == s.taken
  {
    StarvedIsJammed(s);
    JamsLast(s, es, s');
  }

  ghost predicate Reachable(maxQueueSize: int, s: State<int>) {
    exists es :: Reaches(Init(maxQueueSize), es, s)
  }

  lemma {:induction false} ReachesThen<T(!new)>(s: State<T>, es: seq<Event<T>>, mid: State<T>, e: Event<T>)
    requires Reaches(s, es, mid) && Enabled(mid, e)
    ensures Reaches(s, es + [e], Apply(mid, e))
    decreases |es|
  {
    if es == [] {
      assert ([] + [e])[1..] == [];
      assert Reaches(Apply(mid, e), [], Apply(mid, e));
    } else {
      ReachesThen(Apply(s, es[0]), es[1..], mid, e);
      assert (es + [e])[1..] == es[1..] + [e];
    }
  }

  lemma ReachableThen(maxQueueSize: int, s: State<int>, e: Event<int>)
    requires Reachable(maxQueueSize, s) && Enabled(s, e)
    ensures Reachable(maxQueueSize, Apply(s, e))
  {
    var es :| Reaches(Init(maxQueueSize), es, s);
    ReachesThen(Init(maxQueueSize), es, s, e);
  }

  /** Nobody waits, and every worker is at work: k of them in a job, the others in the init callback. */
  ghost predicate AtWork(s: State<int>, maxQueueSize: int, n: nat, k: nat) {
    && s.maxQueueSize == maxQueueSize && s.threads == n && s.running
    && s.notEmpty == NOBODY && s.notFull.waiting == s.notFull.woken == {}
    && s.busy == Workers(n) && |s.taken| == k
  }

  /** A caller brings a job to each worker. */
  lemma {:induction false} EveryoneGetsAJob(maxQueueSize: int, n: nat, k: nat) returns (s: State<int>)
    requires 0 < maxQueueSize && 0 < n && k <= n
    ensures Reachable(maxQueueSize, s) && AtWork(s, maxQueueSize, n, k) && s.queue == []
  {
    if k == 0 {
      var s0: State<int> := Init(maxQueueSize);
      assert Reaches(s0, [], s0);
      ReachableThen(maxQueueSize, s0, Start(n));
      s := Apply(s0, Start(n));
    } else {
      var s0 := EveryoneGetsAJob(maxQueueSize, n, k - 1);
      ReachableThen(maxQueueSize, s0, RunEnter(n, 0, {}));
      var s1 := Apply(s0, RunEnter(n, 0, {}));
      ReachableThen(maxQueueSize, s1, TakeEnter(k - 1, {}));
      s := Apply(s1, TakeEnter(k - 1, {}));
    }
  }

  /** Then the caller fills the queue up. */
  lemma {:induction false} QueueFillsUp(maxQueueSize: int, n: nat, k: nat) returns (s: State<int>)
    requires 0 < maxQueueSize && 0 < n && k <= maxQueueSize
    ensures Reachable(maxQueueSize, s) && AtWork(s, maxQueueSize, n, n) && |s.queue| == k
  {
    if k == 0 {
      s := EveryoneGetsAJob(maxQueueSize, n, n);
    } else {
      var s0 := QueueFillsUp(maxQueueSize, n, k - 1);
      ReachableThen(maxQueueSize, s0, RunEnter(n, 0, {}));
      s := Apply(s0, RunEnter(n, 0, {}));
    }
  }

  /** Then the jobs themselves call Run, one after the other. */
  lemma {:induction false} WorkersPark(maxQueueSize: int, n: nat, k: nat) returns (s: State<int>)
    requires 0 < maxQueueSize && 0 < n && k <= n
    ensures Reachable(maxQueueSize, s) && s.maxQueueSize == maxQueueSize && s.threads == n && s.running
    ensures |s.queue| == maxQueueSize && s.notEmpty == NOBODY && s.notFull.woken == {}
    ensures (forall t: Tid :: t in s.notFull.waiting <==> t < k) && s.busy == Workers(n)
  {
    if k == 0 {
      s := QueueFillsUp(maxQueueSize, n, maxQueueSize);
    } else {
      var s0 := WorkersPark(maxQueueSize, n, k - 1);
      ReachableThen(maxQueueSize, s0, RunEnter(k - 1, 0, {}));
      s := Apply(s0, RunEnter(k - 1, 0, {}));
    }
  }

  /** Jobs and init callbacks may call Run, or only threads outside a pool of n workers do. */
  ghost predicate Keeps(es: seq<Event<int>>, n: nat, workersRun: bool) {
    workersRun || forall e <- es :: e.RunEnter? ==> e.t >= n
  }

  /** Workers that do not call Run never wait for room. */
  lemma {:induction false} OutsidersWaitForRoom(s: State<int>, es: seq<Event<int>>, s': State<int>, n: nat)
    requires Inv(s) && Reaches(s, es, s') && Keeps(es, n, false)
    requires forall t <- s.holding :: t >= n
    ensures Inv(s') && forall t <- s'.holding :: t >= n
    decreases |es|
  {
    if es != [] {
      StepKeepsInv(s, es[0]);
      OutsidersWaitForRoom(Apply(s, es[0]), es[1..], s', n);
    }
  }

  /** A pool of n workers can starve exactly when its queue is bounded and the workers themselves
      may call Run. */
  lemma OnlyBoundedPoolsStarve(maxQueueSize: int, n: nat, workersRun: bool)
    ensures (exists es, s :: Reaches(Init(maxQueueSize), es, s) && Keeps(es, n, workersRun) &&
                             s.threads == n && Starved(s))
       <==> n > 0 && maxQueueSize > 0 && workersRun
  {
    if n > 0 && maxQueueSize > 0 && workersRun {
      var s := WorkersPark(maxQueueSize, n, n);
      var es :| Reaches(Init(maxQueueSize), es, s);
      assert Keeps(es, n, workersRun) && Starved(s);
    }
    forall es, s | Reaches(Init(maxQueueSize), es, s) && Keeps(es, n, workersRun) && s.threads == n && Starved(s)
      ensures maxQueueSize > 0 && workersRun
    {
      RunKeepsInv(Init(maxQueueSize), es, s);
      assert 0 in s.notFull.waiting && 0 in s.holding;
      if !workersRun {
        OutsidersWaitForRoom(Init(maxQueueSize), es, s, n);
      }
    }
  }
}

/** The pool object: the critical sections of the protocol on its own fields. */
module ThreadPools {
  import opened Options
  import opened Conditions
  import P = ThreadPoolProtocol

  class ThreadPool<T> {
    const maxQueueSize: int
    var started: bool
    var threads: nat
    var running: bool
    var queue: seq<T>
    var notEmpty: Condition
    var notFull: Condition
    var holding: map<Tid, T>
    var busy: set<Tid>
    ghost var direct: seq<T>
    ghost var accepted: seq<T>
    ghost var taken: seq<T>

    ghost function Model(): P.State<T>
      reads this
    {
      P.State(maxQueueSize, started, threads, running, queue, notEmpty, notFull, holding, busy,
              direct, accepted, taken)
    }

    ghost predicate Valid()
      reads this
    {
      P.Inv(Model())
    }

    constructor (maxQueueSize: int)
      ensures Valid() && Model() == P.Init(maxQueueSize)
    {
      this.maxQueueSize := maxQueueSize;
      started, threads, running, queue := false, 0, false, [];
      notEmpty, notFull, holding, busy := NOBODY, NOBODY, map[], {};
      direct, accepted, taken := [], [], [];
    }

    method Start(numThreads: nat)
      requires Valid() && !started
      modifies this
      ensures Valid() && Model() == P.Apply(old(Model()), P.Start(numThreads))
    {
      P.StepKeepsInv(Model(), P.Start(numThreads));
      started, running, threads, busy := true, true, numThreads, P.Workers(numThreads);
    }

    method Stop()
      requires Valid() && started
      modifies this
      ensures Valid() && Model() == P.Apply(old(Model()), P.Stop)
    {
      P.StepKeepsInv(Model(), P.Stop);
      running := false;
      notEmpty := notEmpty.NotifyAll();
      notFull := notFull.NotifyAll();
    }

    predicate QueueIsFull()
      reads this
    {
      maxQueueSize > 0 && |queue| >= maxQueueSize
    }

    /** Run up to its return or to parking. */
    method RunEnter(t: Tid, job: T, wake: set<Tid>)
      requires Valid() && P.Enabled(Model(), P.RunEnter(t, job, wake))
      modifies this
      ensures Valid() && Model() == P.Apply(old(Model()), P.RunEnter(t, job, wake))
    {
      P.StepKeepsInv(Model(), P.RunEnter(t, job, wake));
      if threads == 0 {
        direct := direct + [job];
      } else {
        RunLocked(t, job, wake);
      }
    }

    method RunResume(t: Tid, wake: set<Tid>)
      requires Valid() && P.Enabled(Model(), P.RunResume(t, wake))
      modifies this
      ensures Valid() && Model() == P.Apply(old(Model()), P.RunResume(t, wake))
    {
      P.StepKeepsInv(Model(), P.RunResume(t, wake));
      var job := holding[t];
      notFull, holding := notFull.Resume(t), holding - {t};
      RunLocked(t, job, wake);
    }

    method RunLocked(t: Tid, job: T, wake: set<Tid>)
      modifies this
      ensures Model() == P.RunLocked(old(Model()), t, job, wake)
    {
      if QueueIsFull() && running {
        notFull := notFull.Wait(t);
        holding := holding[t := job];
        return;
      }
      if !running { return; }
      queue := queue + [job];
      accepted := accepted + [job];
      notEmpty := notEmpty.Notify(wake);
    }

    /** Take up to its return or to parking; None stands both for parking and for the empty
        functor returned after Stop. */
    method TakeEnter(t: Tid, wake: set<Tid>) returns (job: Option<T>)
      requires Valid() && P.Enabled(Model(), P.TakeEnter(t, wake))
      modifies this
      ensures Valid() && Model() == P.Apply(old(Model()), P.TakeEnter(t, wake))
      ensures job == if old(running) && old(queue) != [] then Some(old(queue)[0]) else None
    {
      P.StepKeepsInv(Model(), P.TakeEnter(t, wake));
      busy := busy - {t};
      job := TakeLocked(t, wake);
    }

    method TakeResume(t: Tid, wake: set<Tid>) returns (job: Option<T>)
      requires Valid() && P.Enabled(Model(), P.TakeResume(t, wake))
      modifies this
      ensures Valid() && Model() == P.Apply(old(Model()), P.TakeResume(t, wake))
      ensures job == if old(running) && old(queue) != [] then Some(old(queue)[0]) else None
    {
      P.StepKeepsInv(Model(), P.TakeResume(t, wake));
      notEmpty := notEmpty.Resume(t);
      job := TakeLocked(t, wake);
    }

    method TakeLocked(t: Tid, wake: set<Tid>) returns (job: Option<T>)
      modifies this
      ensures Model() == P.TakeLocked(old(Model()), t, wake)
      ensures job == if old(running) && old(queue) != [] then Some(old(queue)[0]) else None
    {
      if |queue| == 0 && running {
        notEmpty := notEmpty.Wait(t);
        return None;
      }
      if !running { return None; }
      job := Some(queue[0]);
      taken := taken + [queue[0]];
      busy := busy + {t};
      queue := queue[1..];
      if maxQueueSize > 0 {
        notFull := notFull.Notify(wake);
      }
    }
  }
}
