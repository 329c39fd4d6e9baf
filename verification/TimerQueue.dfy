/** Timer handles and the ordered set of src/reactor/Timer.h and src/reactor/TimerQueue.h. */
module TimerSets {

  type Ptr = nat               // the address of a Timer; 0 is the null pointer

  const INT64_MAX: int := 0x7FFF_FFFF_FFFF_FFFF

  datatype TimerIndex = TimerIndex(timer: Ptr, expiration: int, sequence: int)

  /** operator<: by expiration, then by sequence. */
  predicate Less(a: TimerIndex, b: TimerIndex) {
    if a.expiration != b.expiration then a.expiration < b.expiration else a.sequence < b.sequence
  }

  predicate SameKey(a: TimerIndex, b: TimerIndex) {
    !Less(a, b) && !Less(b, a)
  }

  ghost predicate Sorted(ts: seq<TimerIndex>) {
    forall i, j :: 0 <= i < j < |ts| ==> Less(ts[i], ts[j])
  }

  /** std::set::insert. */
  function Insert(ts: seq<TimerIndex>, x: TimerIndex): seq<TimerIndex> {
    if ts == [] then [x]
    else if Less(x, ts[0]) then [x] + ts
    else if Less(ts[0], x) then [ts[0]] + Insert(ts[1..], x)
    else ts
  }

  /** std::set::erase by key. */
  function Erase(ts: seq<TimerIndex>, x: TimerIndex): seq<TimerIndex> {
    if ts == [] then []
    else if SameKey(ts[0], x) then ts[1..]
    else [ts[0]] + Erase(ts[1..], x)
  }

  predicate Contains(ts: seq<TimerIndex>, x: TimerIndex) {
    exists i :: 0 <= i < |ts| && SameKey(ts[i], x)
  }

  /** How many elements std::set::lower_bound skips. */
  function LowerBound(ts: seq<TimerIndex>, x: TimerIndex): (k: nat)
    ensures k <= |ts|
    ensures forall i :: 0 <= i < k ==> Less(ts[i], x)
    ensures k < |ts| ==> !Less(ts[k], x)
  {
    if ts == [] || !Less(ts[0], x) then 0 else 1 + LowerBound(ts[1..], x)
  }

  /** An insertion adds exactly the new entry and keeps the order, or does nothing if the key is
      there already. */
  lemma {:induction false} InsertKeepsOrder(ts: seq<TimerIndex>, x: TimerIndex)
    requires Sorted(ts)
    ensures Sorted(Insert(ts, x)) && Insert(ts, x) != []
    ensures if Contains(ts, x) then Insert(ts, x) == ts else forall e :: e in Insert(ts, x) <==> e == x || e in ts
    ensures Insert(ts, x)[0] == if ts == [] || Less(x, ts[0]) then x else ts[0]
  {
    if ts != [] && Less(ts[0], x) {
      var rest := ts[1..];
      assert forall i :: 0 <= i < |rest| ==> rest[i] == ts[i + 1];
      InsertKeepsOrder(rest, x);
      ContainedBehind(ts, x);
      var r := Insert(rest, x);
      forall j | 0 <= j < |r|
        ensures Less(ts[0], r[j])
      {
        assert r[j] in r;
        assert r[j] == x || r[j] in rest;
      }
    } else if ts != [] && !Less(x, ts[0]) {
      assert SameKey(ts[0], x);
    }
  }

  lemma ContainedBehind(ts: seq<TimerIndex>, x: TimerIndex)
    requires ts != [] && Less(ts[0], x)
    ensures Contains(ts, x) <==> Contains(ts[1..], x)
  {
    if Contains(ts, x) {
      var i :| 0 <= i < |ts| && SameKey(ts[i], x);
      assert SameKey(ts[1..][i - 1], x);
    }
    if Contains(ts[1..], x) {
      var i :| 0 <= i < |ts[1..]| && SameKey(ts[1..][i], x);
      assert SameKey(ts[i + 1], x);
    }
  }

  lemma {:induction false} EraseKeepsOrder(ts: seq<TimerIndex>, x: TimerIndex)
    requires Sorted(ts)
    ensures Sorted(Erase(ts, x))
    ensures forall e :: e in Erase(ts, x) <==> e in ts && !SameKey(e, x)
    ensures Erase(ts, x) != [] ==> ts != [] && (Erase(ts, x)[0] == ts[0] || Less(ts[0], Erase(ts, x)[0]))
  {
    if ts != [] {
      var rest := ts[1..];
      assert forall i :: 0 <= i < |rest| ==> rest[i] == ts[i + 1];
      if SameKey(ts[0], x) {
        forall e | e in rest
          ensures !SameKey(e, x)
        {
          var i :| 0 <= i < |rest| && rest[i] == e;
          assert Less(ts[0], ts[i + 1]);
        }
      } else {
        EraseKeepsOrder(rest, x);
        var r := Erase(rest, x);
        forall j | 0 <= j < |r|
          ensures Less(ts[0], r[j])
        {
          assert r[j] in r;
        }
      }
    }
  }

  function Sentry(now: int): TimerIndex { TimerIndex(0, now, INT64_MAX) }

  /** GetExpired cuts the set into everything due at `now` and everything later, both in
      (expiration, sequence) order. */
  lemma ExpiredAreAllDue(ts: seq<TimerIndex>, now: int)
    requires Sorted(ts) && forall e <- ts :: e.sequence < INT64_MAX
    ensures var k := LowerBound(ts, Sentry(now));
      && Sorted(ts[..k]) && Sorted(ts[k..])
      && (forall e :: e in ts[..k] <==> e in ts && e.expiration <= now)
      && (forall e :: e in ts[k..] <==> e in ts && e.expiration > now)
  {
    var k := LowerBound(ts, Sentry(now));
    SortedParts(ts, k);
    forall i | 0 <= i < |ts|
      ensures ts[i].expiration <= now <==> i < k
    {
      DueIsBeforeBound(ts, now, i);
    }
    SplitByPosition(ts, k, now);
  }

  lemma SortedParts(ts: seq<TimerIndex>, k: nat)
    requires Sorted(ts) && k <= |ts|
    ensures Sorted(ts[..k]) && Sorted(ts[k..])
  {
  }

  lemma DueIsBeforeBound(ts: seq<TimerIndex>, now: int, i: nat)
    requires Sorted(ts) && i < |ts| && forall e <- ts :: e.sequence < INT64_MAX
    ensures ts[i].expiration <= now <==> i < LowerBound(ts, Sentry(now))
  {
    var k := LowerBound(ts, Sentry(now));
    assert ts[i] in ts;
    if k < i {
      assert ts[k] in ts && Less(ts[k], ts[i]);
    }
  }

  lemma SplitByPosition(ts: seq<TimerIndex>, k: nat, now: int)
    requires k <= |ts| && forall i :: 0 <= i < |ts| ==> (ts[i].expiration <= now <==> i < k)
    ensures forall e :: e in ts[..k] <==> e in ts && e.expiration <= now
    ensures forall e :: e in ts[k..] <==> e in ts && e.expiration > now
  {
    assert ts == ts[..k] + ts[k..];
  }
}

/** The timer queue of src/reactor/TimerQueue.cc in small steps, with manual ownership. HandleRead
    is BeginRead, then RunCallback and Finish for every expired timer, then EndRead; between
    RunCallback and Finish the callback may add and cancel timers at will. Other threads allocate
    and post at any time. An address may be reused after its timer is deleted. */
module TimerQueueProtocol {
  import opened Options
  import opened TimerSets

  /** Which owner a live Timer has: a posted functor, timers_, or the expired vector. */
  datatype Owner = InPost | InSet | InBatch

  /** A live Timer object; `owner` only records where it is. */
  datatype Timer = Timer(expiration: int, interval: real, sequence: int, owner: Owner)

  datatype Functor = PostedAdd(timer: Ptr) | PostedCancel(handle: TimerIndex)

  datatype Run = Run(index: TimerIndex, at: int)

  datatype State = State(
    clock: int,
    heap: map<Ptr, Timer>,     // the live Timer objects
    count: int,                // Timer::count_
    timers: seq<TimerIndex>,   // the ordered set timers_
    armed: Option<int>,        // when timerfd_ expires
    handling: bool,            // inside HandleRead
    now: int,                  // its clock reading
    batch: seq<TimerIndex>,    // what is left of its expired vector
    running: bool,             // the callback of batch[0] has been called
    posted: seq<Functor>,      // functors from other threads, not yet run by the loop
    handles: set<TimerIndex>,  // every handle AddTimer has returned, and the default one
    unread: set<TimerIndex>,   // those that other threads inside AddTimer are about to make
    ran: seq<Run>)             // every callback call

  datatype Event =
    | Tick(d: nat)
    | Add(timer: Ptr, when: int, interval: real, foreign: bool)   // if foreign, up to the posting
    | ReadSequence(pending: TimerIndex)                           // the rest of a foreign one
    | Cancel(handle: TimerIndex, foreign: bool)
    | RunPosted
    | BeginRead
    | RunCallback
    | Finish
    | EndRead

  const DEFAULT_HANDLE := TimerIndex(0, 0, 0)

  function Init(clock: int): State {
    State(clock, map[], 0, [], None, false, clock, [], false, [], {DEFAULT_HANDLE}, {}, [])
  }

  /** Every handle that is made or in the making. */
  function Handles(s: State): set<TimerIndex> {
    s.handles + s.unread
  }

  /** User code runs in the loop thread: outside HandleRead or inside a callback. */
  predicate UserCode(s: State) {
    s.handling ==> s.running
  }

  predicate Enabled(s: State, e: Event) {
    match e
    case Tick(_) => true
    case Add(p, _, _, foreign) => (foreign || UserCode(s)) && p != 0 && p !in s.heap && s.count + 1 < INT64_MAX
    case ReadSequence(h) => h in s.unread
    case Cancel(h, foreign) => (foreign || UserCode(s)) && h in s.handles
    case RunPosted => !s.handling && s.posted != []
    case BeginRead => !s.handling
    case RunCallback => s.handling && !s.running && s.batch != []
    case Finish => s.running && s.batch != []
    case EndRead => s.handling && !s.running && s.batch == []
  }

  function UpdateTimerfd(s: State, expiration: int): State {
    s.(armed := Some(if s.clock < expiration then expiration else s.clock + 1))
  }

  /** None for a timer that is not live, or when the insertion is refused. */
  function AddTimerInLoop(s: State, p: Ptr): Option<State> {
    if p !in s.heap then None
    else
      var toAdd := Index(s.heap, p);
      var s1 := if s.timers == [] || toAdd.expiration < s.timers[0].expiration
                then UpdateTimerfd(s, toAdd.expiration) else s;
      if Contains(s.timers, toAdd) then None
      else Some(s1.(timers := Insert(s.timers, toAdd), heap := s.heap[p := s.heap[p].(owner := InSet)]))
  }

  function Delete(s: State, p: Ptr): Option<State> {
    if p !in s.heap then None else Some(s.(heap := s.heap - {p}))
  }

  /** Looked up by key, but the pointer deleted is the one in the handle. */
  function CancelTimerInLoop(s: State, h: TimerIndex): Option<State> {
    if !Contains(s.timers, h) then Some(s)
    else Delete(s.(timers := Erase(s.timers, h)), h.timer)
  }

  function RunFunctor(s: State, f: Functor): Option<State> {
    match f
    case PostedAdd(p) => AddTimerInLoop(s, p)
    case PostedCancel(h) => CancelTimerInLoop(s, h)
  }

  predicate IsRepeated(t: Timer) { t.interval > 0.0 }

  /** AddSeconds: the interval in whole microseconds. */
  function Delta(interval: real): int {
    (interval * 1000000.0).Floor
  }

  function Restart(t: Timer, now: int): Timer {
    t.(expiration := if IsRepeated(t) then now + Delta(t.interval) else 0)
  }

  function Allocate(s: State, p: Ptr, when: int, interval: real): State {
    s.(count := s.count + 1, heap := s.heap[p := Timer(when, interval, s.count + 1, InPost)])
  }

  /** AddTimer; in another thread, up to the posting. */
  function AddTimer(s: State, p: Ptr, when: int, interval: real, foreign: bool): Option<State> {
    var h, s1 := TimerIndex(p, when, s.count + 1), Allocate(s, p, when, interval);
    if foreign then Some(s1.(posted := s1.posted + [PostedAdd(p)], unread := s1.unread + {h}))
    else AddTimerInLoop(s1.(handles := s1.handles + {h}), p)
  }

  /** Another thread reads the sequence behind the address it has posted, whoever lives there by
      then; None if nobody does. */
  function MakeHandle(s: State, h: TimerIndex): Option<State> {
    if h.timer !in s.heap then None
    else Some(s.(unread := s.unread - {h},
                 handles := s.handles + {TimerIndex(h.timer, h.expiration, s.heap[h.timer].sequence)}))
  }

  function BeginHandleRead(s: State): State {
    var k := LowerBound(s.timers, Sentry(s.clock));
    var expired := s.timers[..k];
    s.(handling := true, now := s.clock, running := false,
       armed := if s.armed.Some? && s.armed.value <= s.clock then None else s.armed,
       batch := expired, timers := s.timers[k..],
       heap := TakeDue(s.heap, s.clock))
  }

  function TakeDue(heap: map<Ptr, Timer>, now: int): map<Ptr, Timer> {
    map p | p in heap ::
      if heap[p].owner == InSet && heap[p].expiration <= now then heap[p].(owner := InBatch) else heap[p]
  }

  function CallBack(s: State): Option<State>
    requires s.batch != []
  {
    if s.batch[0].timer !in s.heap then None
    else Some(s.(running := true, ran := s.ran + [Run(s.batch[0], s.now)]))
  }

  function FinishOne(s: State): Option<State>
    requires s.batch != []
  {
    var p := s.batch[0].timer;
    var s1 := s.(running := false, batch := s.batch[1..]);
    if p !in s.heap then None
    else if IsRepeated(s.heap[p]) then
      AddTimerInLoop(s1.(heap := s.heap[p := Restart(s.heap[p], s.now)]), p)
    else Delete(s1, p)
  }

  function EndHandleRead(s: State): State {
    var s1 := s.(handling := false);
    if s.timers != [] then UpdateTimerfd(s1, s.timers[0].expiration) else s1
  }

  /** None means that a deleted Timer was used or deleted again, or that an assert failed. */
  function Apply(s: State, e: Event): Option<State>
    requires Enabled(s, e)
  {
    match e
    case Tick(d) => Some(s.(clock := s.clock + d))
    case Add(p, when, interval, foreign) => AddTimer(s, p, when, interval, foreign)
    case ReadSequence(h) => MakeHandle(s, h)
    case Cancel(h, foreign) =>
      if foreign then Some(s.(posted := s.posted + [PostedCancel(h)])) else CancelTimerInLoop(s, h)
    case RunPosted => RunFunctor(s.(posted := s.posted[1..]), s.posted[0])
    case BeginRead => Some(BeginHandleRead(s))
    case RunCallback => CallBack(s)
    case Finish => FinishOne(s)
    case EndRead => Some(EndHandleRead(s))
  }

  ghost predicate Reaches(s: State, es: seq<Event>, r: Option<State>)
    decreases |es|, 0
  {
    if es == [] then r == Some(s)
    else Enabled(s, es[0]) && Continues(Apply(s, es[0]), es[1..], r)
  }

  ghost predicate Continues(mid: Option<State>, es: seq<Event>, r: Option<State>)
    decreases |es|, 1
  {
    if mid.None? then r == None else Reaches(mid.value, es, r)
  }

  // What every step keeps.

  type Heap = map<Ptr, Timer>

  ghost predicate HeapInv(heap: Heap, count: int) {
    && 0 <= count < INT64_MAX
    && 0 !in heap
    && (forall p :: p in heap ==> 1 <= heap[p].sequence <= count)
    && (forall p, q :: p in heap && q in heap && heap[p].sequence == heap[q].sequence ==> p == q)
  }

  function Index(heap: Heap, p: Ptr): TimerIndex
    requires p in heap
  {
    TimerIndex(p, heap[p].expiration, heap[p].sequence)
  }

  ghost predicate Is(heap: Heap, p: Ptr, owner: Owner) {
    p in heap && heap[p].owner == owner
  }

  /** A sorted list of handles and the live timers with one owner are the same timers. */
  ghost predicate Owns(heap: Heap, entries: seq<TimerIndex>, owner: Owner) {
    && Sorted(entries)
    && (forall e <- entries :: Is(heap, e.timer, owner) && e == Index(heap, e.timer))
    && (forall p :: Is(heap, p, owner) ==> Index(heap, p) in entries)
  }

  ghost predicate PostInv(heap: Heap, posted: seq<Functor>, handles: set<TimerIndex>) {
    && (forall p :: Is(heap, p, InPost) ==> PostedAdd(p) in posted)
    && (forall f <- posted :: if f.PostedAdd? then Is(heap, f.timer, InPost) else f.handle in handles)
    && (forall i, j :: 0 <= i < j < |posted| && posted[i].PostedAdd? ==> posted[i] != posted[j])
  }

  /** The timer with a handle's sequence, if it lives, is where the handle says. */
  ghost predicate HandleInv(heap: Heap, handles: set<TimerIndex>, count: int) {
    && (forall h <- handles :: h.sequence <= count)
    && (forall h, p :: h in handles && p in heap && heap[p].sequence == h.sequence ==> p == h.timer)
  }

  /** And its deadline is not before the one the handle carries. */
  ghost predicate Dated(heap: Heap, handles: set<TimerIndex>) {
    forall h, p :: h in handles && p in heap && heap[p].sequence == h.sequence ==> h.expiration <= heap[p].expiration
  }

  ghost predicate BatchInv(s: State) {
    && s.now <= s.clock
    && (!s.handling ==> s.batch == [] && !s.running)
    && (s.running ==> s.batch != [])
    && (forall e <- s.batch :: e.expiration <= s.now)
  }

  /** The kernel timer fires no later than the earliest deadline, or a microsecond from now. */
  ghost predicate Armed(s: State) {
    s.timers != [] ==>
      s.armed.Some? && (s.armed.value <= s.timers[0].expiration || s.armed.value <= s.clock + 1)
  }

  ghost predicate Inv(s: State) {
    && HeapInv(s.heap, s.count)
    && Owns(s.heap, s.timers, InSet) && Owns(s.heap, s.batch, InBatch)
    && PostInv(s.heap, s.posted, s.handles)
    && HandleInv(s.heap, Handles(s), s.count) && BatchInv(s)
    && (!s.handling ==> Armed(s))
  }

  /** Nothing that belongs to `owner` differs between the two heaps. */
  ghost predicate SameFor(heap: Heap, heap': Heap, owner: Owner) {
    forall q :: (Is(heap, q, owner) <==> Is(heap', q, owner)) && (Is(heap, q, owner) ==> heap'[q] == heap[q])
  }

  lemma OwnsFrame(heap: Heap, heap': Heap, entries: seq<TimerIndex>, owner: Owner)
    requires Owns(heap, entries, owner) && SameFor(heap, heap', owner)
    ensures Owns(heap', entries, owner)
  {
  }

  lemma PostFrame(heap: Heap, heap': Heap, posted: seq<Functor>, handles: set<TimerIndex>, handles': set<TimerIndex>)
    requires PostInv(heap, posted, handles) && SameFor(heap, heap', InPost) && handles <= handles'
    ensures PostInv(heap', posted, handles')
  {
  }

  /** The heap once p has been handed over to timers_. */
  function Moved(heap: Heap, p: Ptr): Heap
    requires p in heap
  {
    heap[p := heap[p].(owner := InSet)]
  }

  /** Inserting a timer that is not in the set yet. */
  lemma InsertOwned(heap: Heap, count: int, timers: seq<TimerIndex>, p: Ptr)
    requires HeapInv(heap, count) && Owns(heap, timers, InSet) && p in heap && heap[p].owner != InSet
    ensures !Contains(timers, Index(heap, p))
    ensures Owns(Moved(heap, p), Insert(timers, Index(heap, p)), InSet)
  {
    var x := Index(heap, p);
    forall i | 0 <= i < |timers|
      ensures !SameKey(timers[i], x)
    {
      assert timers[i] in timers;
    }
    InsertKeepsOrder(timers, x);
    var r, heap' := Insert(timers, x), Moved(heap, p);
    forall q | Is(heap', q, InSet)
      ensures Index(heap', q) in r
    {
      assert q != p ==> Is(heap, q, InSet);
    }
  }

  lemma ArmedAfterAdd(s: State, p: Ptr)
    requires p in s.heap && Sorted(s.timers) && !Contains(s.timers, Index(s.heap, p)) && Armed(s)
    ensures AddTimerInLoop(s, p).Some? && Armed(AddTimerInLoop(s, p).value)
  {
    InsertKeepsOrder(s.timers, Index(s.heap, p));
  }

  lemma AddKeepsInv(s: State, p: Ptr)
    requires HeapInv(s.heap, s.count) && Owns(s.heap, s.timers, InSet) && p in s.heap && s.heap[p].owner != InSet
    requires Owns(Moved(s.heap, p), s.batch, InBatch) && PostInv(Moved(s.heap, p), s.posted, s.handles)
    requires HandleInv(s.heap, Handles(s), s.count) && BatchInv(s) && (!s.handling ==> Armed(s))
    ensures AddTimerInLoop(s, p).Some? && Inv(AddTimerInLoop(s, p).value)
  {
    InsertOwned(s.heap, s.count, s.timers, p);
    if !s.handling {
      ArmedAfterAdd(s, p);
    }
    Changed(s.heap, s.count, Handles(s), p, Moved(s.heap, p)[p]);
  }

  /** A live timer keeps its sequence. */
  lemma Changed(heap: Heap, count: int, handles: set<TimerIndex>, p: Ptr, t: Timer)
    requires HeapInv(heap, count) && HandleInv(heap, handles, count) && p in heap
    requires t.sequence == heap[p].sequence
    ensures HeapInv(heap[p := t], count) && HandleInv(heap[p := t], handles, count)
  {
  }

  lemma Allocated(heap: Heap, count: int, handles: set<TimerIndex>, p: Ptr, t: Timer)
    requires HeapInv(heap, count) && HandleInv(heap, handles, count) && p !in heap && p != 0
    requires t.sequence == count + 1 < INT64_MAX
    ensures HeapInv(heap[p := t], count + 1)
    ensures HandleInv(heap[p := t], handles + {TimerIndex(p, t.expiration, t.sequence)}, count + 1)
  {
  }

  /** A cancelled handle that is found in the set is exactly the set's own entry, so the pointer
      it carries is the live timer's. */
  lemma FoundHandleIsEntry(s: State, h: TimerIndex)
    requires Inv(s) && h in s.handles
    ensures Contains(s.timers, h) <==> h in s.timers
  {
    if Contains(s.timers, h) {
      var i :| 0 <= i < |s.timers| && SameKey(s.timers[i], h);
      assert s.timers[i] in s.timers;
    }
    if h in s.timers {
      var i :| 0 <= i < |s.timers| && s.timers[i] == h;
      assert SameKey(s.timers[i], h);
    }
  }

  /** Erasing an entry and deleting its timer. */
  lemma EraseOwned(heap: Heap, count: int, timers: seq<TimerIndex>, h: TimerIndex)
    requires HeapInv(heap, count) && Owns(heap, timers, InSet) && h in timers
    ensures Owns(heap - {h.timer}, Erase(timers, h), InSet)
  {
    EraseKeepsOrder(timers, h);
    var r, heap' := Erase(timers, h), heap - {h.timer};
    forall e | e in r
      ensures Is(heap', e.timer, InSet) && e == Index(heap', e.timer)
    {
      assert e in timers && !SameKey(e, h);
    }
    forall q | Is(heap', q, InSet)
      ensures Index(heap', q) in r
    {
      assert Index(heap, q) in timers;
    }
  }

  lemma CancelKeepsInv(s: State, h: TimerIndex)
    requires Inv(s) && h in s.handles
    ensures CancelTimerInLoop(s, h).Some? && Inv(CancelTimerInLoop(s, h).value)
  {
    FoundHandleIsEntry(s, h);
    if h in s.timers {
      EraseKeepsInv(s, h);
    }
  }

  lemma EraseKeepsInv(s: State, h: TimerIndex)
    requires Inv(s) && h in s.timers
    ensures h.timer in s.heap && Inv(s.(timers := Erase(s.timers, h), heap := s.heap - {h.timer}))
  {
    EraseOwned(s.heap, s.count, s.timers, h);
    EraseKeepsOrder(s.timers, h);
    var heap' := s.heap - {h.timer};
    OwnsFrame(s.heap, heap', s.batch, InBatch);
    PostFrame(s.heap, heap', s.posted, s.handles, s.handles);
  }

  lemma AddTimerKeepsInv(s: State, p: Ptr, when: int, interval: real, foreign: bool)
    requires Inv(s) && Enabled(s, Add(p, when, interval, foreign))
    ensures AddTimer(s, p, when, interval, foreign).Some? && Inv(AddTimer(s, p, when, interval, foreign).value)
  {
    if foreign {
      AddForeignKeepsInv(s, p, when, interval);
    } else {
      AddInLoopKeepsInv(s, p, when, interval);
    }
  }

  lemma AddForeignKeepsInv(s: State, p: Ptr, when: int, interval: real)
    requires Inv(s) && Enabled(s, Add(p, when, interval, true))
    ensures Inv(AddTimer(s, p, when, interval, true).value)
  {
    var h, s1 := TimerIndex(p, when, s.count + 1), Allocate(s, p, when, interval);
    AllocateKeepsOthers(s, p, when, interval);
    assert s.handles + (s.unread + {h}) == Handles(s) + {h};
    PostAllocated(s.heap, s1.heap, s.posted, s.handles, s.handles, p);
  }

  lemma AllocatedFrames(heap: Heap, p: Ptr, t: Timer)
    requires p !in heap && t.owner == InPost
    ensures SameFor(heap, heap[p := t], InSet) && SameFor(heap, heap[p := t], InBatch)
  {
  }

  lemma AllocateKeepsOthers(s: State, p: Ptr, when: int, interval: real)
    requires Inv(s) && p !in s.heap && p != 0 && s.count + 1 < INT64_MAX
    ensures var s1 := Allocate(s, p, when, interval);
      && HeapInv(s1.heap, s1.count)
      && HandleInv(s1.heap, Handles(s) + {TimerIndex(p, when, s.count + 1)}, s1.count)
      && Owns(s1.heap, s.timers, InSet) && Owns(s1.heap, s.batch, InBatch)
  {
    var s1 := Allocate(s, p, when, interval);
    Allocated(s.heap, s.count, Handles(s), p, s1.heap[p]);
    AllocatedFrames(s.heap, p, s1.heap[p]);
    OwnsFrame(s.heap, s1.heap, s.timers, InSet);
    OwnsFrame(s.heap, s1.heap, s.batch, InBatch);
  }

  lemma AddedFrames(heap: Heap, p: Ptr, t: Timer)
    requires p !in heap
    ensures SameFor(heap, Moved(heap[p := t], p), InBatch) && SameFor(heap, Moved(heap[p := t], p), InPost)
  {
  }

  lemma AddInLoopKeepsInv(s: State, p: Ptr, when: int, interval: real)
    requires Inv(s) && Enabled(s, Add(p, when, interval, false))
    ensures AddTimer(s, p, when, interval, false).Some? && Inv(AddTimer(s, p, when, interval, false).value)
  {
    var h := TimerIndex(p, when, s.count + 1);
    var s1 := Allocate(s, p, when, interval).(handles := s.handles + {h});
    AllocateKeepsOthers(s, p, when, interval);
    assert Handles(s1) == Handles(s) + {h};
    var heap' := Moved(s1.heap, p);
    AddedFrames(s.heap, p, s1.heap[p]);
    OwnsFrame(s.heap, heap', s.batch, InBatch);
    PostFrame(s.heap, heap', s.posted, s.handles, s1.handles);
    AddKeepsInv(s1, p);
  }

  lemma PostAllocated(
    heap: Heap, heap': Heap, posted: seq<Functor>, handles: set<TimerIndex>, handles': set<TimerIndex>, p: Ptr)
    requires PostInv(heap, posted, handles) && handles <= handles'
    requires p !in heap && p in heap' && heap' == heap[p := heap'[p]] && heap'[p].owner == InPost
    ensures PostInv(heap', posted + [PostedAdd(p)], handles')
  {
    assert PostedAdd(p) !in posted;
    forall q | Is(heap', q, InPost)
      ensures PostedAdd(q) in posted + [PostedAdd(p)]
    {
      assert q != p ==> Is(heap, q, InPost);
    }
  }

  lemma RunPostedKeepsInv(s: State)
    requires Inv(s) && Enabled(s, RunPosted)
    ensures Apply(s, RunPosted).Some? && Inv(Apply(s, RunPosted).value)
  {
    var f := s.posted[0];
    var s1 := s.(posted := s.posted[1..]);
    assert s.posted == [f] + s1.posted && f in s.posted;
    if f.PostedAdd? {
      PostTaken(s.heap, s.posted, s.handles);
      OwnsFrame(s.heap, Moved(s.heap, f.timer), s.batch, InBatch);
      AddKeepsInv(s1, f.timer);
    } else {
      CancelTaken(s);
      CancelKeepsInv(s1, f.handle);
    }
  }

  lemma CancelTaken(s: State)
    requires Inv(s) && s.posted != [] && s.posted[0].PostedCancel?
    ensures s.posted[0].handle in s.handles && Inv(s.(posted := s.posted[1..]))
  {
    assert s.posted == [s.posted[0]] + s.posted[1..] && s.posted[0] in s.posted;
    assert PostInv(s.heap, s.posted[1..], s.handles);
  }

  lemma PostTaken(heap: Heap, posted: seq<Functor>, handles: set<TimerIndex>)
    requires PostInv(heap, posted, handles) && posted != [] && posted[0].PostedAdd? && posted[0].timer in heap
    ensures PostInv(Moved(heap, posted[0].timer), posted[1..], handles)
  {
    var p, rest := posted[0].timer, posted[1..];
    assert posted == [posted[0]] + rest;
    assert forall i :: 0 <= i < |rest| ==> rest[i] == posted[i + 1];
    forall q | Is(Moved(heap, p), q, InPost)
      ensures PostedAdd(q) in rest
    {
      assert Is(heap, q, InPost);
    }
  }

  /** Everything due leaves the set for the batch. */
  lemma SplitOwned(heap: Heap, count: int, timers: seq<TimerIndex>, now: int)
    requires HeapInv(heap, count) && Owns(heap, timers, InSet) && Owns(heap, [], InBatch)
    ensures var k := LowerBound(timers, Sentry(now));
      Owns(TakeDue(heap, now), timers[..k], InBatch) && Owns(TakeDue(heap, now), timers[k..], InSet)
  {
    assert forall e <- timers :: e.sequence < INT64_MAX;
    ExpiredAreAllDue(timers, now);
    DueOwned(heap, timers, LowerBound(timers, Sentry(now)), now);
    RestOwned(heap, timers, LowerBound(timers, Sentry(now)), now);
  }

  lemma DueOwned(heap: Heap, timers: seq<TimerIndex>, k: nat, now: int)
    requires k <= |timers| && Owns(heap, timers, InSet) && Owns(heap, [], InBatch)
    requires forall i :: 0 <= i < |timers| ==> (timers[i].expiration <= now <==> i < k)
    ensures Owns(TakeDue(heap, now), timers[..k], InBatch)
  {
    var heap' := TakeDue(heap, now);
    assert forall q :: q in heap' ==> Index(heap', q) == Index(heap, q);
    assert forall q :: Is(heap', q, InBatch) ==> Is(heap, q, InSet);
  }

  lemma RestOwned(heap: Heap, timers: seq<TimerIndex>, k: nat, now: int)
    requires k <= |timers| && Owns(heap, timers, InSet)
    requires forall i :: 0 <= i < |timers| ==> (timers[i].expiration <= now <==> i < k)
    ensures Owns(TakeDue(heap, now), timers[k..], InSet)
  {
    var heap' := TakeDue(heap, now);
    assert forall q :: q in heap' ==> Index(heap', q) == Index(heap, q);
    assert forall q :: Is(heap', q, InSet) ==> Is(heap, q, InSet);
  }

  lemma DueKeepsNumbers(heap: Heap, count: int, handles: set<TimerIndex>, now: int)
    requires HeapInv(heap, count) && HandleInv(heap, handles, count)
    ensures HeapInv(TakeDue(heap, now), count) && HandleInv(TakeDue(heap, now), handles, count)
    ensures SameFor(heap, TakeDue(heap, now), InPost)
  {
  }

  lemma BeginKeepsInv(s: State)
    requires Inv(s) && Enabled(s, BeginRead)
    ensures Inv(BeginHandleRead(s))
  {
    SplitOwned(s.heap, s.count, s.timers, s.clock);
    ExpiredAreAllDue(s.timers, s.clock);
    DueKeepsNumbers(s.heap, s.count, Handles(s), s.clock);
    PostFrame(s.heap, TakeDue(s.heap, s.clock), s.posted, s.handles, s.handles);
  }

  /** The head of the batch is done with: it leaves for the set, or is deleted. */
  lemma HeadLeaves(heap: Heap, heap': Heap, batch: seq<TimerIndex>)
    requires Owns(heap, batch, InBatch) && batch != []
    requires forall q :: q != batch[0].timer ==> (q in heap <==> q in heap') && (q in heap ==> heap'[q] == heap[q])
    requires !Is(heap', batch[0].timer, InBatch)
    ensures Owns(heap', batch[1..], InBatch)
  {
    var rest := batch[1..];
    assert batch == [batch[0]] + rest;
    forall e | e in rest
      ensures e.timer != batch[0].timer
    {
      var i :| 0 <= i < |rest| && rest[i] == e;
      assert Less(batch[0], batch[i + 1]);
      assert e in batch && batch[0] in batch;
    }
    forall q | Is(heap', q, InBatch)
      ensures Index(heap', q) in rest
    {
      assert Is(heap, q, InBatch);
    }
  }

  lemma RestartKeepsInv(s: State, p: Ptr)
    requires Inv(s) && s.batch != [] && s.batch[0].timer == p && Is(s.heap, p, InBatch) && IsRepeated(s.heap[p])
    requires s.heap[p].expiration <= s.now
    requires s.handling
    ensures FinishOne(s).Some? && Inv(FinishOne(s).value)
  {
    var t := Restart(s.heap[p], s.now);
    var s2 := s.(running := false, batch := s.batch[1..], heap := s.heap[p := t]);
    var heap' := Moved(s2.heap, p);
    Changed(s.heap, s.count, Handles(s), p, t);
    OwnsFrame(s.heap, s2.heap, s.timers, InSet);
    HeadLeaves(s.heap, heap', s.batch);
    PostFrame(s.heap, heap', s.posted, s.handles, s.handles);
    assert forall e <- s2.batch :: e in s.batch;
    AddKeepsInv(s2, p);
  }

  lemma FinishKeepsInv(s: State)
    requires Inv(s) && Enabled(s, Finish)
    ensures FinishOne(s).Some? && Inv(FinishOne(s).value)
  {
    var p := s.batch[0].timer;
    assert s.batch[0] in s.batch;
    if IsRepeated(s.heap[p]) {
      RestartKeepsInv(s, p);
    } else {
      var heap' := s.heap - {p};
      assert forall e <- s.batch[1..] :: e in s.batch;
      HeadLeaves(s.heap, heap', s.batch);
      OwnsFrame(s.heap, heap', s.timers, InSet);
      PostFrame(s.heap, heap', s.posted, s.handles, s.handles);
    }
  }

  /** A foreign AddTimer comes to read the sequence of a timer that has been deleted, and nobody else
      has its address. */
  predicate ReadsDeleted(s: State, e: Event) {
    e.ReadSequence? && e.pending.timer !in s.heap
  }

  lemma MakeHandleKeepsInv(s: State, h: TimerIndex)
    requires Inv(s) && h in s.unread && h.timer in s.heap
    ensures Inv(MakeHandle(s, h).value)
  {
    PostFrame(s.heap, s.heap, s.posted, s.handles, MakeHandle(s, h).value.handles);
  }

  lemma PostCancelKeepsInv(s: State, h: TimerIndex)
    requires Inv(s) && h in s.handles
    ensures Inv(s.(posted := s.posted + [PostedCancel(h)]))
  {
    assert PostInv(s.heap, s.posted + [PostedCancel(h)], s.handles);
  }

  lemma SmallStepKeepsInv(s: State, e: Event)
    requires Inv(s) && Enabled(s, e) && (e.Tick? || e.RunCallback? || e.EndRead?)
    ensures Apply(s, e).Some? && Inv(Apply(s, e).value)
  {
    if e.RunCallback? {
      assert s.batch[0] in s.batch;
    }
  }

  lemma StepIsSafe(s: State, e: Event)
    requires Inv(s) && Enabled(s, e)
    ensures Apply(s, e).None? <==> ReadsDeleted(s, e)
    ensures !ReadsDeleted(s, e) ==> Inv(Apply(s, e).value)
  {
    match e
    case Add(p, when, interval, foreign) => AddTimerKeepsInv(s, p, when, interval, foreign);
    case ReadSequence(h) => if h.timer in s.heap { MakeHandleKeepsInv(s, h); }
    case Cancel(h, foreign) => if foreign { PostCancelKeepsInv(s, h); } else { CancelKeepsInv(s, h); }
    case RunPosted => RunPostedKeepsInv(s);
    case BeginRead => BeginKeepsInv(s);
    case Finish => FinishKeepsInv(s);
    case Tick(_) | RunCallback | EndRead => SmallStepKeepsInv(s, e);
  }

  // What holds in every run.

  ghost predicate NeverReadsDeleted(s: State, es: seq<Event>)
    decreases |es|
  {
    es == [] || !Enabled(s, es[0]) || (
      && !ReadsDeleted(s, es[0])
      && var s' := Apply(s, es[0]); s'.None? || NeverReadsDeleted(s'.value, es[1..]))
  }

  lemma {:induction false} RunKeepsInv(s: State, es: seq<Event>, r: Option<State>)
    requires Inv(s) && Reaches(s, es, r)
    ensures r.Some? <==> NeverReadsDeleted(s, es)
    ensures r.Some? ==> Inv(r.value)
    decreases |es|
  {
    if es != [] {
      StepIsSafe(s, es[0]);
      if !ReadsDeleted(s, es[0]) {
        RunKeepsInv(Apply(s, es[0]).value, es[1..], r);
      }
    }
  }

  lemma InitInv(clock: int)
    ensures Inv(Init(clock))
  {
  }

  ghost predicate Among(ts: seq<TimerIndex>, p: Ptr) {
    exists e :: e in ts && e.timer == p
  }

  /** Each live Timer has one owner: timers_, the unprocessed part of the batch, or a posted functor. */
  ghost predicate OwnedOnce(s: State, p: Ptr) {
    && (p in s.heap <==> Among(s.timers, p) || Among(s.batch, p) || PostedAdd(p) in s.posted)
    && !(Among(s.timers, p) && Among(s.batch, p))
    && (PostedAdd(p) in s.posted ==> !Among(s.timers, p) && !Among(s.batch, p))
  }

  lemma LiveIsOwnedOnce(s: State, p: Ptr)
    requires Inv(s)
    ensures OwnedOnce(s, p)
  {
    if p in s.heap {
      var e := Index(s.heap, p);
      assert e in s.timers || e in s.batch || PostedAdd(p) in s.posted;
    }
  }

  /** In every run, whatever the callbacks and other threads add and cancel and however addresses
      are reused: no deleted Timer is used or deleted again and no assert fails, but for a foreign
      AddTimer that reads the sequence of its timer too late; each live Timer is owned once; and
      outside HandleRead a non-empty set has the kernel timer armed in time. */
  lemma LiveTimersAreOwned(clock: int, es: seq<Event>, r: Option<State>)
    requires Reaches(Init(clock), es, r)
    ensures r.Some? <==> NeverReadsDeleted(Init(clock), es)
    ensures r.Some? ==> forall p :: OwnedOnce(r.value, p)
    ensures r.Some? && !r.value.handling ==> Armed(r.value)
  {
    InitInv(clock);
    RunKeepsInv(Init(clock), es, r);
    if r.Some? {
      forall p
        ensures OwnedOnce(r.value, p)
      {
        LiveIsOwnedOnce(r.value, p);
      }
    }
  }

  function Expired(s: State): seq<TimerIndex> {
    s.timers[..LowerBound(s.timers, Sentry(s.clock))]
  }

  function Runs(expired: seq<TimerIndex>, now: int): (runs: seq<Run>)
    ensures |runs| == |expired|
  {
    seq(|expired|, i requires 0 <= i < |expired| => Run(expired[i], now))
  }

  lemma RunsCons(ran: seq<Run>, batch: seq<TimerIndex>, now: int)
    requires batch != []
    ensures ran + Runs(batch, now) == (ran + [Run(batch[0], now)]) + Runs(batch[1..], now)
  {
    assert Runs(batch, now) == [Run(batch[0], now)] + Runs(batch[1..], now);
  }

  /** The part of the batch whose callbacks are still to be called. */
  function ToRun(s: State): seq<TimerIndex> {
    if s.running && s.batch != [] then s.batch[1..] else s.batch
  }

  predicate Inner(e: Event) { !e.BeginRead? && !e.EndRead? }

  lemma InnerStep(s: State, e: Event)
    requires Inv(s) && s.handling && Inner(e) && Enabled(s, e) && Apply(s, e).Some?
    ensures var s' := Apply(s, e).value;
      s'.handling && s'.now == s.now && s'.ran + Runs(ToRun(s'), s.now) == s.ran + Runs(ToRun(s), s.now)
  {
    match e
    case RunCallback =>
      RunsCons(s.ran, s.batch, s.now);
    case _ =>
  }

  lemma {:induction false} InnerSteps(s: State, es: seq<Event>, s': State)
    requires Inv(s) && s.handling && (forall e <- es :: Inner(e)) && Reaches(s, es, Some(s'))
    ensures Inv(s') && s'.handling && s'.ran + Runs(ToRun(s'), s.now) == s.ran + Runs(ToRun(s), s.now)
    decreases |es|
  {
    if es != [] {
      InnerStep(s, es[0]);
      StepIsSafe(s, es[0]);
      InnerSteps(Apply(s, es[0]).value, es[1..], s');
    }
  }

  /** One whole HandleRead, whatever its callbacks do, calls every timer of the set that is due
      when it starts, each once, in (expiration, sequence) order, and calls no other. */
  lemma HandleReadRunsWhatIsDue(s: State, inner: seq<Event>, s': State)
    requires Inv(s) && Enabled(s, BeginRead)
    requires (forall e <- inner :: Inner(e)) && Reaches(BeginHandleRead(s), inner, Some(s'))
    requires Enabled(s', EndRead)
    ensures EndHandleRead(s').ran == s.ran + Runs(Expired(s), s.clock)
    ensures Sorted(Expired(s)) && forall e :: e in Expired(s) <==> e in s.timers && e.expiration <= s.clock
  {
    BeginKeepsInv(s);
    InnerSteps(BeginHandleRead(s), inner, s');
    assert Runs(ToRun(s'), s.clock) == [];
    assert forall e <- s.timers :: e.sequence < INT64_MAX;
    ExpiredAreAllDue(s.timers, s.clock);
  }

  /** After its callback an expired timer is back in the set, at the interval from now, if it
      repeats, and is deleted otherwise; the new deadline is in the future exactly when the
      interval reaches one microsecond. */
  lemma FinishReaddsRepeating(s: State)
    requires Inv(s) && Enabled(s, Finish)
    ensures FinishOne(s).Some?
    ensures var p := s.batch[0].timer; var t := s.heap[p]; var s' := FinishOne(s).value;
      && (p in s'.heap <==> t.interval > 0.0)
      && (t.interval > 0.0 ==> TimerIndex(p, s.now + Delta(t.interval), t.sequence) in s'.timers)
      && (t.interval > 0.0 ==> (s'.heap[p].expiration > s.now <==> t.interval >= 0.000001))
  {
    FinishKeepsInv(s);
    var p := s.batch[0].timer;
    assert s.batch[0] in s.batch;
    if s.heap[p].interval > 0.0 {
      var s' := FinishOne(s).value;
      assert Is(s'.heap, p, InSet) && Index(s'.heap, p) in s'.timers;
    }
  }

  /** Cancelling removes and deletes exactly the timer the handle was made for, if that timer is
      in the set with the deadline the handle carries; otherwise it changes nothing. */
  lemma CancelIsByKey(s: State, h: TimerIndex)
    requires Inv(s) && h in s.handles
    ensures CancelTimerInLoop(s, h).Some?
    ensures var s' := CancelTimerInLoop(s, h).value;
      if Is(s.heap, h.timer, InSet) && h == Index(s.heap, h.timer)
      then s'.heap == s.heap - {h.timer} && (forall e :: e in s'.timers <==> e in s.timers && e != h)
      else s' == s
  {
    CancelKeepsInv(s, h);
    FoundHandleIsEntry(s, h);
    EraseKeepsOrder(s.timers, h);
    if h in s.timers {
      forall e | e in s.timers && SameKey(e, h)
        ensures e == h
      {
        assert Is(s.heap, e.timer, InSet);
      }
    }
  }

  /** A repeating timer whose deadline has moved past that of every handle to it. */
  ghost predicate Uncancellable(s: State, p: Ptr, sequence: int) {
    && p in s.heap && s.heap[p].sequence == sequence && IsRepeated(s.heap[p])
    && forall h <- Handles(s) :: h.sequence == sequence ==> h.expiration < s.heap[p].expiration
  }

  /** After a restart no handle reaches the timer any more, unless the restart has left the
      deadline where its handle has it: the timer was due in this very microsecond and its
      interval is below one. */
  lemma RestartMakesUncancellable(s: State)
    requires Inv(s) && Dated(s.heap, Handles(s)) && Enabled(s, Finish) && IsRepeated(s.heap[s.batch[0].timer])
    ensures FinishOne(s).Some?
    ensures var p := s.batch[0].timer; var t := s.heap[p];
      Uncancellable(FinishOne(s).value, p, t.sequence) <==>
        t.interval >= 0.000001 || t.expiration < s.now || Index(s.heap, p) !in Handles(s)
  {
    FinishReaddsRepeating(s);
    assert s.batch[0] in s.batch;
    var p := s.batch[0].timer;
    var t, s' := s.heap[p], FinishOne(s).value;
    assert Handles(s') == Handles(s) && s'.heap[p].expiration == s.now + Delta(t.interval);
    forall h | h in Handles(s) && h.sequence == t.sequence
      ensures h.expiration < t.expiration || h == Index(s.heap, p)
    {
    }
  }

  lemma CancelSpares(s: State, h: TimerIndex, p: Ptr, sequence: int)
    requires Inv(s) && h in s.handles && Uncancellable(s, p, sequence)
    ensures CancelTimerInLoop(s, h).Some? && Uncancellable(CancelTimerInLoop(s, h).value, p, sequence)
  {
    CancelIsByKey(s, h);
  }

  lemma FinishSpares(s: State, p: Ptr, sequence: int)
    requires Inv(s) && Enabled(s, Finish) && Uncancellable(s, p, sequence)
    ensures FinishOne(s).Some? && Uncancellable(FinishOne(s).value, p, sequence)
  {
    assert s.batch[0] in s.batch;
    FinishReaddsRepeating(s);
    assert Handles(FinishOne(s).value) == Handles(s);
  }

  lemma RunPostedSpares(s: State, p: Ptr, sequence: int)
    requires Inv(s) && Enabled(s, RunPosted) && Uncancellable(s, p, sequence)
    ensures Apply(s, RunPosted).Some? && Uncancellable(Apply(s, RunPosted).value, p, sequence)
  {
    RunPostedKeepsInv(s);
    var f := s.posted[0];
    assert f in s.posted;
    if f.PostedCancel? {
      FoundHandleIsEntry(s, f.handle);
    }
  }

  lemma AddSpares(s: State, q: Ptr, when: int, interval: real, foreign: bool, p: Ptr, sequence: int)
    requires Inv(s) && Enabled(s, Add(q, when, interval, foreign)) && Uncancellable(s, p, sequence)
    ensures AddTimer(s, q, when, interval, foreign).Some?
    ensures Uncancellable(AddTimer(s, q, when, interval, foreign).value, p, sequence)
  {
    AddTimerKeepsInv(s, q, when, interval, foreign);
  }

  /** A foreign AddTimer reads a sequence that is not its own timer's any more. */
  predicate Misreads(s: State, e: Event) {
    e.ReadSequence? && !(e.pending.timer in s.heap && s.heap[e.pending.timer].sequence == e.pending.sequence)
  }

  /** No foreign AddTimer of the run misreads. */
  ghost predicate Prompt(s: State, es: seq<Event>)
    decreases |es|
  {
    es == [] || !Enabled(s, es[0]) || (
      && !Misreads(s, es[0])
      && var s' := Apply(s, es[0]); s'.None? || Prompt(s'.value, es[1..]))
  }

  /** A prompt read makes the very handle that was in the making. */
  lemma PromptRead(s: State, h: TimerIndex)
    requires h in s.unread && !Misreads(s, ReadSequence(h))
    ensures MakeHandle(s, h) == Some(s.(unread := s.unread - {h}, handles := s.handles + {h}))
    ensures Handles(MakeHandle(s, h).value) == Handles(s)
  {
  }

  /** What is still alive has the same sequence, and a deadline that is no earlier. */
  ghost predicate Ages(heap: Heap, heap': Heap) {
    forall q :: q in heap' ==>
      q in heap && heap'[q].sequence == heap[q].sequence && heap[q].expiration <= heap'[q].expiration
  }

  lemma AgedAreDated(heap: Heap, heap': Heap, handles: set<TimerIndex>)
    requires Dated(heap, handles) && Ages(heap, heap')
    ensures Dated(heap', handles)
  {
  }

  lemma FinishAges(s: State)
    requires Inv(s) && Enabled(s, Finish)
    ensures FinishOne(s).Some? && Ages(s.heap, FinishOne(s).value.heap) && Handles(FinishOne(s).value) == Handles(s)
  {
    FinishKeepsInv(s);
    assert s.batch[0] in s.batch;
  }

  lemma AddInLoopAges(s: State, p: Ptr)
    requires AddTimerInLoop(s, p).Some?
    ensures var s' := AddTimerInLoop(s, p).value; Ages(s.heap, s'.heap) && Handles(s') == Handles(s)
  {
  }

  lemma CancelAges(s: State, h: TimerIndex)
    requires CancelTimerInLoop(s, h).Some?
    ensures var s' := CancelTimerInLoop(s, h).value; Ages(s.heap, s'.heap) && Handles(s') == Handles(s)
  {
  }

  lemma RunPostedAges(s: State)
    requires Enabled(s, RunPosted) && Apply(s, RunPosted).Some?
    ensures var s' := Apply(s, RunPosted).value; Ages(s.heap, s'.heap) && Handles(s') == Handles(s)
  {
    var f, s1 := s.posted[0], s.(posted := s.posted[1..]);
    if f.PostedAdd? {
      AddInLoopAges(s1, f.timer);
    } else {
      CancelAges(s1, f.handle);
    }
  }

  lemma AllocatedIsDated(s: State, p: Ptr, t: Timer, h: TimerIndex)
    requires HandleInv(s.heap, Handles(s), s.count) && HeapInv(s.heap, s.count) && Dated(s.heap, Handles(s))
    requires p !in s.heap && t.sequence == h.sequence == s.count + 1 && h.expiration == t.expiration
    ensures Dated(s.heap[p := t], Handles(s) + {h})
  {
  }

  lemma AddIsDated(s: State, p: Ptr, when: int, interval: real, foreign: bool)
    requires Inv(s) && Dated(s.heap, Handles(s)) && Enabled(s, Add(p, when, interval, foreign))
    requires AddTimer(s, p, when, interval, foreign).Some?
    ensures var s' := AddTimer(s, p, when, interval, foreign).value; Dated(s'.heap, Handles(s'))
  {
    var h, s1 := TimerIndex(p, when, s.count + 1), Allocate(s, p, when, interval);
    AllocatedIsDated(s, p, s1.heap[p], h);
    if foreign {
      var s' := AddTimer(s, p, when, interval, true).value;
      assert Handles(s') == Handles(s) + {h} && s'.heap == s1.heap;
    } else {
      var s2 := s1.(handles := s1.handles + {h});
      assert Handles(s2) == Handles(s) + {h};
      AddInLoopAges(s2, p);
      AgedAreDated(s2.heap, AddTimerInLoop(s2, p).value.heap, Handles(s2));
      assert AddTimer(s, p, when, interval, false) == AddTimerInLoop(s2, p);
    }
  }

  lemma DatedStep(s: State, e: Event)
    requires Inv(s) && Dated(s.heap, Handles(s)) && Enabled(s, e) && !Misreads(s, e)
    ensures Apply(s, e).Some? && Dated(Apply(s, e).value.heap, Handles(Apply(s, e).value))
  {
    match e
    case Add(p, when, interval, foreign) =>
      AddTimerKeepsInv(s, p, when, interval, foreign);
      AddIsDated(s, p, when, interval, foreign);
    case ReadSequence(h) => PromptRead(s, h);
    case Cancel(h, foreign) => if !foreign { CancelIsByKey(s, h); }
    case RunPosted =>
      RunPostedKeepsInv(s);
      RunPostedAges(s);
      AgedAreDated(s.heap, Apply(s, e).value.heap, Handles(s));
    case Finish =>
      FinishAges(s);
      AgedAreDated(s.heap, Apply(s, e).value.heap, Handles(s));
    case RunCallback => StepIsSafe(s, e);
    case _ =>
  }

  /** In every prompt run a handle's deadline is never later than its timer's. */
  lemma {:induction false} HandlesAreDated(s: State, es: seq<Event>, r: Option<State>)
    requires Inv(s) && Dated(s.heap, Handles(s)) && Reaches(s, es, r) && Prompt(s, es)
    ensures r.Some? && Inv(r.value) && Dated(r.value.heap, Handles(r.value))
    decreases |es|
  {
    if es != [] {
      DatedStep(s, es[0]);
      StepIsSafe(s, es[0]);
      HandlesAreDated(Apply(s, es[0]).value, es[1..], r);
    }
  }

  lemma UncancellableStep(s: State, e: Event, p: Ptr, sequence: int)
    requires Inv(s) && Enabled(s, e) && Uncancellable(s, p, sequence) && !Misreads(s, e)
    ensures Apply(s, e).Some? && Uncancellable(Apply(s, e).value, p, sequence)
  {
    match e
    case Add(q, when, interval, foreign) => AddSpares(s, q, when, interval, foreign, p, sequence);
    case ReadSequence(h) => PromptRead(s, h);
    case Cancel(h, foreign) => if !foreign { CancelSpares(s, h, p, sequence); }
    case RunPosted => RunPostedSpares(s, p, sequence);
    case Finish => FinishSpares(s, p, sequence);
    case RunCallback => StepIsSafe(s, e);
    case _ =>
  }

  /** So a timer made by RunEvery can be cancelled only until its first restart: from then on it
      is live in every later state of a prompt run, whatever is cancelled. */
  lemma {:induction false} RestartedTimerLivesForever(s: State, es: seq<Event>, r: Option<State>, p: Ptr, sequence: int)
    requires Inv(s) && Uncancellable(s, p, sequence) && Reaches(s, es, r) && Prompt(s, es)
    ensures r.Some? && Uncancellable(r.value, p, sequence)
    decreases |es|
  {
    if es != [] {
      StepIsSafe(s, es[0]);
      UncancellableStep(s, es[0], p, sequence);
      RestartedTimerLivesForever(Apply(s, es[0]).value, es[1..], r, p, sequence);
    }
  }

  // AddTimer reads the sequence of its timer after it has posted it.

  /** A repeating timer that nobody has set out to cancel. */
  ghost predicate Running(s: State, h: TimerIndex) {
    && h.timer in s.heap && s.heap[h.timer].sequence == h.sequence && IsRepeated(s.heap[h.timer])
    && (forall g <- Handles(s) :: g.sequence == h.sequence ==> g == h)
    && (forall f <- s.posted :: f.PostedCancel? ==> f.handle != h)
  }

  predicate Cancels(e: Event, h: TimerIndex) {
    e.Cancel? && e.handle == h
  }

  lemma CancelKeepsRunning(s: State, g: TimerIndex, h: TimerIndex)
    requires Inv(s) && g in s.handles && g != h && Running(s, h)
    ensures CancelTimerInLoop(s, g).Some? && Running(CancelTimerInLoop(s, g).value, h)
  {
    CancelIsByKey(s, g);
  }

  lemma PostedKeepsRunning(s: State, h: TimerIndex)
    requires Inv(s) && Enabled(s, RunPosted) && Running(s, h)
    ensures Apply(s, RunPosted).Some? && Running(Apply(s, RunPosted).value, h)
  {
    RunPostedKeepsInv(s);
    var f, s1 := s.posted[0], s.(posted := s.posted[1..]);
    assert f in s.posted && forall g <- s1.posted :: g in s.posted;
    if f.PostedCancel? {
      FoundHandleIsEntry(s, f.handle);
      assert f.handle in s.timers ==> f.handle == Index(s.heap, f.handle.timer);
    }
  }

  lemma AddKeepsRunning(s: State, p: Ptr, when: int, interval: real, foreign: bool, h: TimerIndex)
    requires Inv(s) && Enabled(s, Add(p, when, interval, foreign)) && Running(s, h)
    ensures AddTimer(s, p, when, interval, foreign).Some?
    ensures Running(AddTimer(s, p, when, interval, foreign).value, h)
  {
    AddTimerKeepsInv(s, p, when, interval, foreign);
  }

  lemma FinishKeepsRunning(s: State, h: TimerIndex)
    requires Inv(s) && Enabled(s, Finish) && Running(s, h)
    ensures FinishOne(s).Some? && Running(FinishOne(s).value, h)
  {
    FinishReaddsRepeating(s);
  }

  lemma RunningStep(s: State, e: Event, h: TimerIndex)
    requires Inv(s) && Enabled(s, e) && Running(s, h) && !Cancels(e, h) && !Misreads(s, e)
    ensures Apply(s, e).Some? && Running(Apply(s, e).value, h)
  {
    match e
    case Add(p, when, interval, foreign) => AddKeepsRunning(s, p, when, interval, foreign, h);
    case ReadSequence(g) => PromptRead(s, g);
    case Cancel(g, foreign) => if !foreign { CancelKeepsRunning(s, g, h); }
    case RunPosted => PostedKeepsRunning(s, h);
    case Finish => FinishKeepsRunning(s, h);
    case RunCallback => StepIsSafe(s, e);
    case _ =>
  }

  /** In a prompt run a repeating timer stays live until somebody cancels it. */
  lemma {:induction false} RunningUntilCancelled(s: State, es: seq<Event>, r: Option<State>, h: TimerIndex)
    requires Inv(s) && Running(s, h) && Reaches(s, es, r) && Prompt(s, es) && forall e <- es :: !Cancels(e, h)
    ensures r.Some? && Running(r.value, h)
    decreases |es|
  {
    if es != [] {
      StepIsSafe(s, es[0]);
      RunningStep(s, es[0], h);
      RunningUntilCancelled(Apply(s, es[0]).value, es[1..], r, h);
    }
  }

  lemma Then(s: State, e: Event, mid: State, es: seq<Event>, r: Option<State>)
    requires Enabled(s, e) && Apply(s, e) == Some(mid) && Reaches(mid, es, r)
    ensures Reaches(s, [e] + es, r)
  {
    assert ([e] + es)[1..] == es;
  }

  /** HandleRead on a set that holds one expired timer that does not repeat. */
  lemma OneShotIsDeleted(s: State, x: TimerIndex) returns (s1: State, s2: State, s3: State)
    requires UserCode(s) && !s.handling && s.timers == [x] && x.expiration <= s.clock && x.sequence < INT64_MAX
    requires s.heap.Keys == {x.timer} && !IsRepeated(s.heap[x.timer])
    ensures Enabled(s, BeginRead) && Apply(s, BeginRead) == Some(s1)
    ensures Enabled(s1, RunCallback) && Apply(s1, RunCallback) == Some(s2)
    ensures Enabled(s2, Finish) && Apply(s2, Finish) == Some(s3)
    ensures s3.heap == map[] && s3.unread == s.unread
  {
    s1 := BeginHandleRead(s);
    assert s.timers[1..] == [] && LowerBound(s.timers, Sentry(s.clock)) == 1;
    assert s1.batch == [x] && s1.batch[1..] == [];
    s2 := CallBack(s1).value;
    s3 := FinishOne(s2).value;
  }

  lemma OneShotIsQueued(interval: real) returns (s1: State, s2: State)
    ensures Enabled(Init(1), Add(1, 0, interval, true)) && Apply(Init(1), Add(1, 0, interval, true)) == Some(s1)
    ensures Enabled(s1, RunPosted) && Apply(s1, RunPosted) == Some(s2)
    ensures UserCode(s2) && !s2.handling && s2.clock == 1 && s2.unread == {TimerIndex(1, 0, 1)}
    ensures s2.timers == [TimerIndex(1, 0, 1)] && s2.heap == map[1 := Timer(0, interval, 1, InSet)]
  {
    s1 := AddTimer(Init(1), 1, 0, interval, true).value;
    s2 := Apply(s1, RunPosted).value;
  }

  /** Other threads add timers with one interval only. */
  predicate Uniform(es: seq<Event>, interval: real) {
    forall e <- es :: e.Add? && e.foreign ==> e.interval == interval
  }

  /** A timer that does not repeat expires and is deleted before the thread that adds it has read its
      sequence. */
  lemma OneShotIsReadLate(interval: real) returns (es: seq<Event>)
    requires !(interval > 0.0)
    ensures Uniform(es, interval) && Reaches(Init(1), es, None)
  {
    var x := TimerIndex(1, 0, 1);
    var s1, s2 := OneShotIsQueued(interval);
    var s3, s4, s5 := OneShotIsDeleted(s2, x);
    FailsLast(s5, ReadSequence(x));
    var e4 := [Finish] + [ReadSequence(x)];
    Then(s4, Finish, s5, [ReadSequence(x)], None);
    Then(s3, RunCallback, s4, e4, None);
    Then(s2, BeginRead, s3, [RunCallback] + e4, None);
    Then(s1, RunPosted, s2, [BeginRead] + ([RunCallback] + e4), None);
    Then(Init(1), Add(1, 0, interval, true), s1, [RunPosted] + ([BeginRead] + ([RunCallback] + e4)), None);
    es := [Add(1, 0, interval, true)] + ([RunPosted] + ([BeginRead] + ([RunCallback] + e4)));
  }

  lemma FailsLast(s: State, e: Event)
    requires Enabled(s, e) && Apply(s, e).None?
    ensures Reaches(s, [e], None)
  {
    assert [e][1..] == [];
    assert Continues(None, [], None);
  }

  /** Every timer a foreign AddTimer is still to read repeats and lives, and nobody has a handle to it. */
  ghost predicate AllThere(s: State) {
    forall h <- s.unread :: There(s, h)
  }

  ghost predicate There(s: State, h: TimerIndex) {
    && h.timer in s.heap && s.heap[h.timer].sequence == h.sequence && IsRepeated(s.heap[h.timer])
    && (forall g <- s.handles :: g.sequence != h.sequence)
    && (forall g <- s.unread :: g.sequence == h.sequence ==> g == h)
  }

  predicate ForeignRepeats(e: Event) {
    e.Add? && e.foreign ==> e.interval > 0.0
  }

  /** A handle with a sequence of its own, already made. */
  lemma NewHandleLeavesThere(s: State, h: TimerIndex)
    requires AllThere(s) && forall g <- s.unread :: g.sequence != h.sequence
    ensures AllThere(s.(handles := s.handles + {h}))
  {
    forall g | g in s.unread
      ensures There(s.(handles := s.handles + {h}), g)
    {
      assert There(s, g);
    }
  }

  /** A handle with a sequence of its own, in the making. */
  lemma NewUnreadIsThere(s: State, h: TimerIndex)
    requires AllThere(s) && forall g <- Handles(s) :: g.sequence != h.sequence
    requires h.timer in s.heap && s.heap[h.timer].sequence == h.sequence && IsRepeated(s.heap[h.timer])
    ensures AllThere(s.(unread := s.unread + {h}))
  {
    forall g | g in s.unread + {h}
      ensures There(s.(unread := s.unread + {h}), g)
    {
      assert g != h ==> There(s, g);
    }
  }

  lemma AllocateLeavesThere(s: State, p: Ptr, when: int, interval: real)
    requires AllThere(s) && p !in s.heap
    ensures AllThere(Allocate(s, p, when, interval))
  {
    forall h | h in s.unread
      ensures There(Allocate(s, p, when, interval), h)
    {
      assert There(s, h);
    }
  }

  lemma AddLeavesThere(s: State, p: Ptr, when: int, interval: real, foreign: bool)
    requires Inv(s) && AllThere(s) && Enabled(s, Add(p, when, interval, foreign)) && (foreign ==> interval > 0.0)
    ensures AddTimer(s, p, when, interval, foreign).Some? && AllThere(AddTimer(s, p, when, interval, foreign).value)
  {
    AddTimerKeepsInv(s, p, when, interval, foreign);
    AllocateLeavesThere(s, p, when, interval);
    assert forall g <- Handles(s) :: g.sequence <= s.count;
    var h, s1 := TimerIndex(p, when, s.count + 1), Allocate(s, p, when, interval);
    if foreign {
      NewUnreadIsThere(s1, h);
      SameLeavesThere(s1.(unread := s1.unread + {h}), AddTimer(s, p, when, interval, true).value);
    } else {
      NewHandleLeavesThere(s1, h);
      AddInLoopLeavesThere(s1.(handles := s1.handles + {h}), p);
    }
  }

  lemma CancelLeavesThere(s: State, g: TimerIndex)
    requires Inv(s) && AllThere(s) && g in s.handles
    ensures CancelTimerInLoop(s, g).Some? && AllThere(CancelTimerInLoop(s, g).value)
  {
    CancelIsByKey(s, g);
    var s' := CancelTimerInLoop(s, g).value;
    forall h | h in s'.unread
      ensures There(s', h)
    {
      assert There(s, h);
    }
  }

  lemma AddInLoopLeavesThere(s: State, p: Ptr)
    requires AllThere(s) && AddTimerInLoop(s, p).Some?
    ensures AllThere(AddTimerInLoop(s, p).value)
  {
    var s' := AddTimerInLoop(s, p).value;
    forall h | h in s'.unread
      ensures There(s', h)
    {
      assert There(s, h);
    }
  }

  lemma RunPostedLeavesThere(s: State)
    requires Inv(s) && AllThere(s) && Enabled(s, RunPosted)
    ensures Apply(s, RunPosted).Some? && AllThere(Apply(s, RunPosted).value)
  {
    RunPostedKeepsInv(s);
    var f, s1 := s.posted[0], s.(posted := s.posted[1..]);
    assert forall h <- s1.unread :: There(s, h) && There(s1, h);
    if f.PostedAdd? {
      AddInLoopLeavesThere(s1, f.timer);
    } else {
      CancelTaken(s);
      CancelLeavesThere(s1, f.handle);
    }
  }

  lemma FinishLeavesThere(s: State)
    requires Inv(s) && AllThere(s) && Enabled(s, Finish)
    ensures FinishOne(s).Some? && AllThere(FinishOne(s).value)
  {
    FinishReaddsRepeating(s);
    FinishAges(s);
    var s' := FinishOne(s).value;
    forall h | h in s'.unread
      ensures There(s', h)
    {
      assert There(s, h);
    }
  }

  lemma ReadLeavesThere(s: State, h: TimerIndex)
    requires AllThere(s) && h in s.unread
    ensures !Misreads(s, ReadSequence(h)) && MakeHandle(s, h).Some? && AllThere(MakeHandle(s, h).value)
  {
    assert There(s, h);
    PromptRead(s, h);
    var s' := MakeHandle(s, h).value;
    forall g | g in s'.unread
      ensures There(s', g)
    {
      assert There(s, g);
    }
  }

  lemma BeginLeavesThere(s: State)
    requires AllThere(s)
    ensures AllThere(BeginHandleRead(s))
  {
    forall h | h in s.unread
      ensures There(BeginHandleRead(s), h)
    {
      assert There(s, h);
    }
  }

  lemma ThereStep(s: State, e: Event)
    requires Inv(s) && AllThere(s) && Enabled(s, e) && ForeignRepeats(e)
    ensures !Misreads(s, e) && Apply(s, e).Some? && AllThere(Apply(s, e).value)
  {
    match e
    case Add(p, when, interval, foreign) => AddLeavesThere(s, p, when, interval, foreign);
    case ReadSequence(h) => ReadLeavesThere(s, h);
    case Cancel(h, foreign) => if !foreign { CancelLeavesThere(s, h); } else { SameLeavesThere(s, Apply(s, e).value); }
    case RunPosted => RunPostedLeavesThere(s);
    case BeginRead => BeginLeavesThere(s);
    case Finish => FinishLeavesThere(s);
    case Tick(_) | RunCallback | EndRead =>
      StepIsSafe(s, e);
      SameLeavesThere(s, Apply(s, e).value);
  }

  lemma SameLeavesThere(s: State, s': State)
    requires AllThere(s) && s'.heap == s.heap && s'.handles == s.handles && s'.unread == s.unread
    ensures AllThere(s')
  {
    forall h | h in s'.unread
      ensures There(s', h)
    {
      assert There(s, h);
    }
  }

  /** If other threads add only repeating timers, none of them misreads. */
  lemma {:induction false} RepeatingReadsArePrompt(s: State, es: seq<Event>)
    requires Inv(s) && AllThere(s) && forall e <- es :: ForeignRepeats(e)
    ensures Prompt(s, es)
    decreases |es|
  {
    if es != [] && Enabled(s, es[0]) {
      ThereStep(s, es[0]);
      StepIsSafe(s, es[0]);
      RepeatingReadsArePrompt(Apply(s, es[0]).value, es[1..]);
    }
  }

  lemma {:induction false} PromptRunsAreSafe(s: State, es: seq<Event>, r: Option<State>)
    requires Inv(s) && Reaches(s, es, r) && Prompt(s, es)
    ensures r.Some?
    decreases |es|
  {
    if es != [] {
      StepIsSafe(s, es[0]);
      PromptRunsAreSafe(Apply(s, es[0]).value, es[1..], r);
    }
  }

  /** A deleted timer is read in some run exactly when the timers that other threads add do not
      repeat: AddTimer reads the sequence after it has posted the timer, and nobody can cancel a
      timer whose handle is not made yet. */
  lemma LateReadIsSafeIffRepeating(interval: real)
    ensures (exists clock, es :: Uniform(es, interval) && Reaches(Init(clock), es, None)) <==> !(interval > 0.0)
  {
    if interval > 0.0 {
      forall clock, es | Uniform(es, interval)
        ensures !Reaches(Init(clock), es, None)
      {
        InitInv(clock);
        RepeatingReadsArePrompt(Init(clock), es);
        if Reaches(Init(clock), es, None) {
          PromptRunsAreSafe(Init(clock), es, None);
        }
      }
    } else {
      var es := OneShotIsReadLate(interval);
    }
  }
}

/** The queue object. Timers live in an explicit heap, so that `new` and `delete` are visible. */
module TimerQueues {
  import opened Options
  import opened TimerSets
  import P = TimerQueueProtocol

  /** What a callback may do to the queue, and the time it may take. */
  datatype Call = CallAdd(timer: Ptr, when: int, interval: real) | CallCancel(handle: TimerIndex) | Spend(d: nat)

  class TimerQueue {
    var clock: int
    var heap: map<Ptr, P.Timer>
    var count: int
    var timers: seq<TimerIndex>
    var armed: Option<int>
    var handling: bool
    var now: int
    var batch: seq<TimerIndex>
    var running: bool
    var posted: seq<P.Functor>
    var handles: set<TimerIndex>
    var unread: set<TimerIndex>
    ghost var ran: seq<P.Run>

    ghost function Model(): P.State
      reads this
    {
      P.State(clock, heap, count, timers, armed, handling, now, batch, running, posted, handles, unread, ran)
    }

    ghost predicate Valid()
      reads this
    {
      P.Inv(Model())
    }

    constructor (clock: int)
      ensures Valid() && Model() == P.Init(clock)
    {
      this.clock, heap, count, timers, armed := clock, map[], 0, [], None;
      handling, now, batch, running := false, clock, [], false;
      posted, handles, unread, ran := [], {P.DEFAULT_HANDLE}, {}, [];
      new;
      P.InitInv(clock);
    }

    /** AddTimer in the loop; `p` is the address the allocator returns. */
    method AddTimer(p: Ptr, when: int, interval: real) returns (h: TimerIndex)
      requires Valid() && P.Enabled(Model(), P.Add(p, when, interval, false))
      modifies this
      ensures Valid() && Some(Model()) == P.Apply(old(Model()), P.Add(p, when, interval, false))
      ensures h == TimerIndex(p, when, old(count) + 1) && h in handles
    {
      P.StepIsSafe(Model(), P.Add(p, when, interval, false));
      h := Allocate(p, when, interval);
      handles := handles + {h};
      AddTimerInLoop(p);
    }

    /** AddTimer in another thread, up to the posting. */
    method PostTimer(p: Ptr, when: int, interval: real) returns (pending: TimerIndex)
      requires Valid() && P.Enabled(Model(), P.Add(p, when, interval, true))
      modifies this
      ensures Valid() && Some(Model()) == P.Apply(old(Model()), P.Add(p, when, interval, true))
      ensures pending == TimerIndex(p, when, old(count) + 1) && pending in unread
    {
      P.StepIsSafe(Model(), P.Add(p, when, interval, true));
      pending := Allocate(p, when, interval);
      unread := unread + {pending};
      posted := posted + [P.PostedAdd(p)];
    }

    /** The rest of it: the handle gets the sequence found at the address, which some timer must
        still occupy. */
    method ReadSequence(pending: TimerIndex) returns (h: TimerIndex)
      requires Valid() && pending in unread && pending.timer in heap
      modifies this`unread, this`handles
      ensures Valid() && Some(Model()) == P.Apply(old(Model()), P.ReadSequence(pending))
      ensures h == TimerIndex(pending.timer, pending.expiration, heap[pending.timer].sequence) && h in handles
    {
      P.StepIsSafe(Model(), P.ReadSequence(pending));
      h := TimerIndex(pending.timer, pending.expiration, heap[pending.timer].sequence);
      unread := unread - {pending};
      handles := handles + {h};
    }

    /** new Timer. */
    method Allocate(p: Ptr, when: int, interval: real) returns (h: TimerIndex)
      modifies this`count, this`heap
      ensures Model() == P.Allocate(old(Model()), p, when, interval) && h == TimerIndex(p, when, count)
    {
      count := count + 1;
      heap := heap[p := P.Timer(when, interval, count, P.InPost)];
      h := TimerIndex(p, when, count);
    }

    method CancelTimer(h: TimerIndex, foreign: bool)
      requires Valid() && P.Enabled(Model(), P.Cancel(h, foreign))
      modifies this
      ensures Valid() && Some(Model()) == P.Apply(old(Model()), P.Cancel(h, foreign))
    {
      P.StepIsSafe(Model(), P.Cancel(h, foreign));
      if foreign {
        posted := posted + [P.PostedCancel(h)];
      } else {
        CancelTimerInLoop(h);
      }
    }

    /** The loop runs the oldest functor posted by another thread. */
    method RunPosted()
      requires Valid() && P.Enabled(Model(), P.RunPosted)
      modifies this
      ensures Valid() && Some(Model()) == P.Apply(old(Model()), P.RunPosted)
    {
      P.StepIsSafe(Model(), P.RunPosted);
      var f := posted[0];
      posted := posted[1..];
      match f
      case PostedAdd(p) => AddTimerInLoop(p);
      case PostedCancel(h) => CancelTimerInLoop(h);
    }

    method AddTimerInLoop(p: Ptr)
      requires P.AddTimerInLoop(Model(), p).Some?
      modifies this
      ensures Some(Model()) == P.AddTimerInLoop(old(Model()), p)
    {
      var toAdd := TimerIndex(p, heap[p].expiration, heap[p].sequence);
      if |timers| == 0 || toAdd.expiration < timers[0].expiration {
        UpdateTimerfd(toAdd.expiration);
      }
      assert !Contains(timers, toAdd);
      timers := Insert(timers, toAdd);
      heap := heap[p := heap[p].(owner := P.InSet)];
    }

    method CancelTimerInLoop(h: TimerIndex)
      requires P.CancelTimerInLoop(Model(), h).Some?
      modifies this
      ensures Some(Model()) == P.CancelTimerInLoop(old(Model()), h)
    {
      if Contains(timers, h) {
        timers := Erase(timers, h);
        Delete(h.timer);
      }
    }

    method Delete(p: Ptr)
      requires p in heap
      modifies this`heap
      ensures heap == old(heap) - {p}
    {
      heap := heap - {p};
    }

    method UpdateTimerfd(expiration: int)
      modifies this`armed
      ensures Model() == P.UpdateTimerfd(old(Model()), expiration)
    {
      if clock < expiration {
        armed := Some(expiration);
      } else {
        armed := Some(clock + 1);
      }
    }

    /** Cuts everything due off the front of the set. */
    method GetExpired(now: int) returns (expired: seq<TimerIndex>)
      modifies this`timers
      ensures expired == old(timers)[..LowerBound(old(timers), Sentry(now))]
      ensures timers == old(timers)[LowerBound(old(timers), Sentry(now))..]
    {
      var k := 0;
      while k < |timers| && Less(timers[k], Sentry(now))
        invariant k <= |timers|
        invariant LowerBound(timers, Sentry(now)) == k + LowerBound(timers[k..], Sentry(now))
      {
        assert timers[k..][1..] == timers[k + 1..];
        k := k + 1;
      }
      expired := timers[..k];
      timers := timers[k..];
    }

    /** HandleRead with arbitrary callbacks: the i-th callback makes the calls listed in calls[i],
        except that no allocator returns a live address and no handle is invented. */
    method HandleRead(calls: seq<seq<Call>>)
      requires Valid() && !handling
      modifies this
      ensures Valid() && !handling && P.Armed(Model())
      ensures ran == old(ran) + P.Runs(P.Expired(old(Model())), old(clock))
    {
      Begin();
      ghost var expired := batch;
      var i := 0;
      while |batch| != 0
        invariant Valid() && handling && !running && now == old(clock)
        invariant ran + P.Runs(batch, now) == old(ran) + P.Runs(expired, now)
        decreases |batch|
      {
        P.RunsCons(ran, batch, now);
        RunOne(if i < |calls| then calls[i] else []);
        i := i + 1;
      }
      assert ran + P.Runs(batch, now) == ran;
      End();
    }

    method RunOne(calls: seq<Call>)
      requires Valid() && handling && !running && batch != []
      modifies this
      ensures Valid() && handling && !running && now == old(now) && batch == old(batch)[1..]
      ensures ran == old(ran) + [P.Run(old(batch)[0], now)]
    {
      CallBack();
      MakeCalls(calls);
      Finish();
    }

    method Begin()
      requires Valid() && !handling
      modifies this
      ensures Valid() && Some(Model()) == P.Apply(old(Model()), P.BeginRead)
      ensures handling && !running && now == old(clock) && ran == old(ran)
      ensures batch == P.Expired(old(Model()))
    {
      P.StepIsSafe(Model(), P.BeginRead);
      ReadAndCut();
    }

    method ReadAndCut()
      modifies this`handling, this`running, this`now, this`armed, this`batch, this`timers, this`heap
      ensures Model() == P.BeginHandleRead(old(Model()))
    {
      handling, running, now := true, false, clock;
      Drain();
      Cut();
    }

    /** The expired handles leave the set for the batch, and their timers with them. */
    method Cut()
      modifies this`batch, this`timers, this`heap
      ensures heap == P.TakeDue(old(heap), now)
      ensures var k := LowerBound(old(timers), Sentry(now)); batch == old(timers)[..k] && timers == old(timers)[k..]
    {
      batch := GetExpired(now);
      heap := P.TakeDue(heap, now);
    }

    /** Reading timerfd_ takes its expiry away. */
    method Drain()
      modifies this`armed
      ensures armed == if old(armed).Some? && old(armed).value <= clock then None else old(armed)
    {
      if armed.Some? && armed.value <= clock {
        armed := None;
      }
    }

    method CallBack()
      requires Valid() && P.Enabled(Model(), P.RunCallback)
      modifies this
      ensures Valid() && Some(Model()) == P.Apply(old(Model()), P.RunCallback)
    {
      P.StepIsSafe(Model(), P.RunCallback);
      running := true;
      ran := ran + [P.Run(batch[0], now)];
    }

    method MakeCalls(calls: seq<Call>)
      requires Valid() && running
      modifies this
      ensures Valid() && running && handling && batch == old(batch) && now == old(now) && ran == old(ran)
    {
      for i := 0 to |calls|
        invariant Valid() && running && handling && batch == old(batch) && now == old(now) && ran == old(ran)
      {
        match calls[i]
        case CallAdd(p, when, interval) =>
          if p != 0 && p !in heap && count + 1 < INT64_MAX {
            var _ := AddTimer(p, when, interval);
          }
        case CallCancel(h) =>
          if h in handles {
            CancelTimer(h, false);
          }
        case Spend(d) =>
          P.StepIsSafe(Model(), P.Tick(d));
          clock := clock + d;
      }
    }

    /** What follows a callback: restart and add again, or delete. */
    method Finish()
      requires Valid() && P.Enabled(Model(), P.Finish)
      modifies this
      ensures Valid() && Some(Model()) == P.Apply(old(Model()), P.Finish)
    {
      P.StepIsSafe(Model(), P.Finish);
      FinishOne();
    }

    method FinishOne()
      requires batch != [] && P.FinishOne(Model()).Some?
      modifies this
      ensures Some(Model()) == P.FinishOne(old(Model()))
    {
      var p := batch[0].timer;
      batch, running := batch[1..], false;
      if P.IsRepeated(heap[p]) {
        heap := heap[p := P.Restart(heap[p], now)];
        AddTimerInLoop(p);
      } else {
        Delete(p);
      }
    }

    method End()
      requires Valid() && P.Enabled(Model(), P.EndRead)
      modifies this
      ensures Valid() && Some(Model()) == P.Apply(old(Model()), P.EndRead)
      ensures !handling && P.Armed(Model()) && ran == old(ran)
    {
      P.StepIsSafe(Model(), P.EndRead);
      handling := false;
      if |timers| != 0 {
        UpdateTimerfd(timers[0].expiration);
      }
    }
  }
}
