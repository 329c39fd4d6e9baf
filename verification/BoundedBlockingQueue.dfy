/** The ring buffer of src/utils/BoundedBlockingQueue.h: a vector that is first filled by
    push_back and then overwritten in place. */
module CircularQueues {

  class CircularQueue<T> {
    const capacity: nat        // vec_.capacity() after reserve
    var vec: seq<T>
    var beginIndex: nat
    var endIndex: nat
    var size: nat
    var count: nat
    ghost var pushes: nat      // how often PushBack and PopFront have run
    ghost var pops: nat

    ghost predicate Valid()
      reads this
    {
      && |vec| == count <= capacity
      && size <= capacity
      && pushes == pops + size
      && (capacity > 0 ==> beginIndex == pops % capacity && endIndex == pushes % capacity)
      && (if count < capacity then beginIndex + size == endIndex == count
          else capacity > 0 ==>
            endIndex == if beginIndex + size < capacity then beginIndex + size
                        else beginIndex + size - capacity)
    }

    /** Where the i-th queued element is stored. */
    ghost function Slot(i: nat): (k: nat)
      requires Valid() && i < size
      reads this
      ensures k < |vec|
    {
      if beginIndex + i < capacity then beginIndex + i else beginIndex + i - capacity
    }

    ghost function Contents(): (s: seq<T>)
      requires Valid()
      reads this
    {
      seq(size, i requires 0 <= i < size reads this requires Valid() => vec[Slot(i)])
    }

    constructor (maxSize: nat)
      ensures Valid() && Contents() == [] && capacity == maxSize
      ensures pushes == pops == 0
    {
      capacity := maxSize;
      vec, beginIndex, endIndex, size, count := [], 0, 0, 0, 0;
      pushes, pops := 0, 0;
    }

    predicate Empty()
      reads this
    {
      size == 0
    }

    predicate Full()
      reads this
    {
      size == capacity
    }

    method PushBack(x: T)
      requires Valid() && !Full()
      modifies this
      ensures Valid() && Contents() == old(Contents()) + [x]
      ensures pushes == old(pushes) + 1 && pops == old(pops)
    {
      if count < capacity {
        vec := vec + [x];
        count := count + 1;
      } else {
        vec := vec[endIndex := x];
      }
      ModSucc(pushes, capacity);
      pushes := pushes + 1;
      endIndex := (endIndex + 1) % capacity;
      size := size + 1;
    }

    method PopFront()
      requires Valid() && !Empty()
      modifies this
      ensures Valid() && Contents() == old(Contents())[1..]
      ensures pushes == old(pushes) && pops == old(pops) + 1
    {
      ModSucc(pops, capacity);
      pops := pops + 1;
      beginIndex := (beginIndex + 1) % capacity;
      size := size - 1;
    }

    method Front() returns (x: T)
      requires Valid() && !Empty()
      ensures x == Contents()[0]
    {
      x := vec[beginIndex];
    }
  }

  lemma ModSucc(a: nat, m: nat)
    requires m > 0
    ensures (a % m + 1) % m == (a + 1) % m
    ensures (a + 1) % m == if a % m + 1 < m then a % m + 1 else 0
  {
    assert a == m * (a / m) + a % m;
    if a % m + 1 < m {
      ModUnique(a + 1, m, a / m, a % m + 1);
    } else {
      ModUnique(a + 1, m, a / m + 1, 0);
      ModUnique(m, m, 1, 0);
    }
  }

  lemma ModUnique(a: int, m: nat, q: int, r: nat)
    requires m > 0 && a == m * q + r && r < m
    ensures a % m == r && a / m == q
  {
    var d := a / m - q;
    assert a == m * (a / m) + a % m;
    assert m * d == m * (a / m) - m * q;
    MultipleIsFar(m, d);
  }

  lemma MultipleIsFar(m: int, d: int)
    requires m > 0
    ensures d >= 1 ==> m * d >= m
    ensures d <= -1 ==> m * d <= -m
  {
    if d >= 1 {
      assert m * d - m == m * (d - 1) >= 0;
    } else if d <= -1 {
      assert m * d + m == m * (d + 1) <= 0;
    }
  }
}

/** Put and Take as a monitor. Each event is one critical section: from acquiring the lock to
    the return of the call or to parking in Wait. */
module BlockingQueueProtocol {
  import opened Conditions

  datatype State<T> = State(
    capacity: nat,
    items: seq<T>,
    notEmpty: Condition,
    notFull: Condition,
    holding: map<Tid, T>,      // the argument of every Put that is inside notFull_.Wait()
    put: seq<T>,               // arguments of completed Puts, in completion order
    taken: seq<T>)             // results of completed Takes, in completion order

  datatype Event<T> =
    | PutEnter(t: Tid, x: T, wake: set<Tid>)
    | PutResume(t: Tid, wake: set<Tid>)
    | PutSpurious(t: Tid)
    | TakeEnter(t: Tid, wake: set<Tid>)
    | TakeResume(t: Tid, wake: set<Tid>)
    | TakeSpurious(t: Tid)

  function Init<T>(capacity: nat): State<T> {
    State(capacity, [], NOBODY, NOBODY, map[], [], [])
  }

  predicate Outside<T>(s: State<T>, t: Tid) {
    !s.notEmpty.Inside(t) && !s.notFull.Inside(t)
  }

  /** The body of Put once the lock is held and the loop condition is looked at. */
  function PutLocked<T>(s: State<T>, t: Tid, x: T, wake: set<Tid>): State<T> {
    if |s.items| == s.capacity then
      s.(notFull := s.notFull.Wait(t), holding := s.holding[t := x])
    else
      s.(items := s.items + [x], put := s.put + [x], notEmpty := s.notEmpty.Notify(wake))
  }

  /** A Put that comes back from notFull_.Wait() with the lock. */
  function Unpark<T>(s: State<T>, t: Tid): State<T> {
    s.(notFull := s.notFull.Resume(t), holding := s.holding - {t})
  }

  function TakeLocked<T>(s: State<T>, t: Tid, wake: set<Tid>): State<T> {
    if |s.items| == 0 then
      s.(notEmpty := s.notEmpty.Wait(t))
    else
      s.(items := s.items[1..], taken := s.taken + [s.items[0]], notFull := s.notFull.Notify(wake))
  }

  predicate Enabled<T>(s: State<T>, e: Event<T>) {
    match e
    case PutEnter(t, _, wake) => Outside(s, t) && s.notEmpty.MayWake(wake)
    case PutResume(t, wake) => t in s.notFull.woken && t in s.holding && s.notEmpty.MayWake(wake)
    case PutSpurious(t) => t in s.notFull.waiting
    case TakeEnter(t, wake) => Outside(s, t) && s.notFull.MayWake(wake)
    case TakeResume(t, wake) => t in s.notEmpty.woken && s.notFull.MayWake(wake)
    case TakeSpurious(t) => t in s.notEmpty.waiting
  }

  function Apply<T>(s: State<T>, e: Event<T>): State<T>
    requires Enabled(s, e)
  {
    match e
    case PutEnter(t, x, wake) => PutLocked(s, t, x, wake)
    case PutResume(t, wake) => PutLocked(Unpark(s, t), t, s.holding[t], wake)
    case PutSpurious(t) => s.(notFull := s.notFull.Notify({t}))
    case TakeEnter(t, wake) => TakeLocked(s, t, wake)
    case TakeResume(t, wake) => TakeLocked(s.(notEmpty := s.notEmpty.Resume(t)), t, wake)
    case TakeSpurious(t) => s.(notEmpty := s.notEmpty.Notify({t}))
  }

  ghost predicate Reaches<T(!new)>(s: State<T>, es: seq<Event<T>>, s': State<T>)
    decreases |es|
  {
    if es == [] then s == s'
    else Enabled(s, es[0]) && Reaches(Apply(s, es[0]), es[1..], s')
  }

  ghost predicate Shape<T>(s: State<T>) {
    && s.notEmpty.Valid() && s.notFull.Valid()
    && (forall t :: !(s.notEmpty.Inside(t) && s.notFull.Inside(t)))
    && (forall t :: t in s.holding <==> s.notFull.Inside(t))
    && |s.items| <= s.capacity
    && s.put == s.taken + s.items
  }

  ghost predicate Inv<T>(s: State<T>) {
    && Shape(s)
    && Covered(s.notEmpty, |s.items|)
    && Covered(s.notFull, s.capacity - |s.items|)
  }

  lemma PutLockedKeepsInv<T>(s: State<T>, t: Tid, x: T, wake: set<Tid>)
    requires Shape(s) && Outside(s, t) && s.notEmpty.MayWake(wake)
    requires Covered(s.notEmpty, |s.items|)
    requires |s.items| < s.capacity ==> Covered(s.notFull, s.capacity - |s.items| - 1)
    ensures Inv(PutLocked(s, t, x, wake))
  {
    if |s.items| != s.capacity {
      NotifyCovers(s.notEmpty, wake, |s.items|);
      assert s.taken + (s.items + [x]) == (s.taken + s.items) + [x];
    }
  }

  lemma TakeLockedKeepsInv<T>(s: State<T>, t: Tid, wake: set<Tid>)
    requires Shape(s) && Outside(s, t) && s.notFull.MayWake(wake)
    requires Covered(s.notFull, s.capacity - |s.items|)
    requires |s.items| > 0 ==> Covered(s.notEmpty, |s.items| - 1)
    ensures Inv(TakeLocked(s, t, wake))
  {
    if |s.items| != 0 {
      NotifyCovers(s.notFull, wake, s.capacity - |s.items|);
      assert s.taken + s.items == (s.taken + [s.items[0]]) + s.items[1..];
    }
  }

  lemma StepKeepsInv<T>(s: State<T>, e: Event<T>)
    requires Inv(s) && Enabled(s, e)
    ensures Inv(Apply(s, e))
  {
    match e
    case PutEnter(t, x, wake) =>
      PutLockedKeepsInv(s, t, x, wake);
    case PutResume(t, wake) =>
      ResumeCovers(s.notFull, t, s.capacity - |s.items|);
      PutLockedKeepsInv(Unpark(s, t), t, s.holding[t], wake);
    case PutSpurious(t) =>
      ReleaseCovers(s.notFull, t, s.capacity - |s.items|);
    case TakeEnter(t, wake) =>
      TakeLockedKeepsInv(s, t, wake);
    case TakeResume(t, wake) =>
      ResumeCovers(s.notEmpty, t, |s.items|);
      TakeLockedKeepsInv(s.(notEmpty := s.notEmpty.Resume(t)), t, wake);
    case TakeSpurious(t) =>
      ReleaseCovers(s.notEmpty, t, |s.items|);
  }

  lemma {:induction false} RunKeepsInv<T(!new)>(s: State<T>, es: seq<Event<T>>, s': State<T>)
    requires Inv(s) && Reaches(s, es, s')
    ensures Inv(s') && s'.capacity == s.capacity
    decreases |es|
  {
    if es != [] {
      StepKeepsInv(s, es[0]);
      RunKeepsInv(Apply(s, es[0]), es[1..], s');
    }
  }

  // The same queue as its callers see it: two growing lists, told from the events alone.

  /** The argument of each thread's last Put, and what the calls that are over have put and taken. */
  datatype Ledger<T> = Ledger(asked: map<Tid, T>, put: seq<T>, taken: seq<T>)

  function Blank<T>(): Ledger<T> {
    Ledger(map[], [], [])
  }

  /** A thread with the lock puts x if there is room. */
  function NotePut<T>(capacity: nat, l: Ledger<T>, x: T): Ledger<T> {
    if |l.put| < |l.taken| + capacity then l.(put := l.put + [x]) else l
  }

  /** A thread with the lock takes the next of what was put, if there is one. */
  function NoteTake<T>(l: Ledger<T>): Ledger<T> {
    if |l.taken| < |l.put| then l.(taken := l.taken + [l.put[|l.taken|]]) else l
  }

  function Note<T>(capacity: nat, l: Ledger<T>, e: Event<T>): Ledger<T> {
    match e
    case PutEnter(t, x, _) => NotePut(capacity, l.(asked := l.asked[t := x]), x)
    case PutResume(t, _) => if t in l.asked then NotePut(capacity, l, l.asked[t]) else l
    case TakeEnter(_, _) => NoteTake(l)
    case TakeResume(_, _) => NoteTake(l)
    case PutSpurious(_) => l
    case TakeSpurious(_) => l
  }

  function Noted<T>(capacity: nat, l: Ledger<T>, es: seq<Event<T>>): Ledger<T>
    decreases |es|
  {
    if es == [] then l else Noted(capacity, Note(capacity, l, es[0]), es[1..])
  }

  ghost predicate Agrees<T>(s: State<T>, l: Ledger<T>) {
    && s.put == l.put && s.taken == l.taken
    && (forall t <- s.holding :: t in l.asked && s.holding[t] == l.asked[t])
  }

  lemma StepAgrees<T>(s: State<T>, l: Ledger<T>, e: Event<T>)
    requires Inv(s) && Enabled(s, e) && Agrees(s, l)
    ensures Agrees(Apply(s, e), Note(s.capacity, l, e))
  {
    assert |s.put| == |s.taken| + |s.items|;
    assert s.items != [] ==> s.put[|s.taken|] == s.items[0];
  }

  lemma {:induction false} RunAgrees<T(!new)>(s: State<T>, l: Ledger<T>, es: seq<Event<T>>, s': State<T>)
    requires Inv(s) && Agrees(s, l) && Reaches(s, es, s')
    ensures Inv(s') && s'.capacity == s.capacity && Agrees(s', Noted(s.capacity, l, es))
    decreases |es|
  {
    if es != [] {
      StepKeepsInv(s, es[0]);
      StepAgrees(s, l, es[0]);
      RunAgrees(Apply(s, es[0]), Note(s.capacity, l, es[0]), es[1..], s');
    }
  }

  /** In every run the queue holds what was put and not yet taken, in order; and every Put that
      is inside its wait still holds the argument it was called with. */
  lemma QueueFollowsItsCalls<T(!new)>(capacity: nat, es: seq<Event<T>>, s: State<T>)
    requires Reaches(Init(capacity), es, s)
    ensures var l := Noted(capacity, Blank(), es);
      && s.put == l.put && s.taken == l.taken && l.put == l.taken + s.items
      && forall t :: s.notFull.Inside(t) ==> t in s.holding && t in l.asked && s.holding[t] == l.asked[t]
  {
    RunAgrees(Init(capacity), Blank(), es, s);
  }

  /** In every run the i-th completed Take returned the argument of the i-th completed Put, both
      told from the events. */
  lemma TakesFollowPuts<T(!new)>(capacity: nat, es: seq<Event<T>>, s: State<T>, i: nat)
    requires Reaches(Init(capacity), es, s) && i < |s.taken|
    ensures var l := Noted(capacity, Blank(), es);
      |s.taken| == |l.taken| <= |l.put| <= |s.taken| + capacity && s.taken[i] == l.put[i]
  {
    RunAgrees(Init(capacity), Blank(), es, s);
  }

  /** In every run, while a consumer is parked the items are at most the consumers already
      released; dually for producers and free slots. */
  lemma NoLostWakeup<T(!new)>(capacity: nat, es: seq<Event<T>>, s: State<T>)
    requires Reaches(Init(capacity), es, s)
    ensures s.notEmpty.waiting != {} ==> |s.items| <= |s.notEmpty.woken|
    ensures s.notFull.waiting != {} ==> capacity - |s.items| <= |s.notFull.woken|
  {
    RunKeepsInv(Init(capacity), es, s);
  }

  ghost predicate Stuck<T>(s: State<T>) {
    && s.notEmpty.waiting != {} && s.notFull.waiting != {}
    && s.notEmpty.woken == {} && s.notFull.woken == {}
  }

  ghost predicate StuckAfter<T(!new)>(capacity: nat, es: seq<Event<T>>) {
    exists s :: Reaches(Init(capacity), es, s) && Stuck(s)
  }

  /** Producers and consumers can all be parked at once exactly when the capacity is zero. */
  lemma DeadlockOnlyWithoutCapacity(capacity: nat)
    ensures (exists es: seq<Event<int>> :: StuckAfter(capacity, es)) <==> capacity == 0
  {
    if capacity == 0 {
      var s0: State<int> := Init(capacity);
      var e0, e1 := PutEnter(0, 0, {}), TakeEnter(1, {0});
      var s1 := Apply(s0, e0);
      var s2 := Apply(s1, e1);
      assert Reaches(s2, [], s2);
      assert [e1][1..] == [] && [e0, e1][1..] == [e1];
      assert Reaches(s1, [e1], s2);
      var es := [e0, e1];
      assert Reaches(Init(capacity), es, s2);
      assert 0 in s2.notFull.waiting && 1 in s2.notEmpty.waiting && Stuck(s2);
      assert StuckAfter(capacity, es);
    } else {
      forall es: seq<Event<int>>, s | Reaches(Init(capacity), es, s)
        ensures !Stuck(s)
      {
        RunKeepsInv(Init(capacity), es, s);
      }
    }
  }

  /** A parked consumer next to a stored item always leaves a released consumer whose next
      step completes a Take; dually for producers and free slots. */
  lemma WorkIsBeingServed<T(!new)>(capacity: nat, es: seq<Event<T>>, s: State<T>)
    returns (t: Tid, e: Event<T>)
    requires Reaches(Init(capacity), es, s)
    requires (s.notEmpty.waiting != {} && s.items != []) || (s.notFull.waiting != {} && |s.items| < capacity)
    ensures Enabled(s, e)
    ensures |Apply(s, e).taken| + |Apply(s, e).put| == |s.taken| + |s.put| + 1
    ensures e.TakeResume? || e.PutResume?
  {
    RunKeepsInv(Init(capacity), es, s);
    if s.notEmpty.waiting != {} && s.items != [] {
      t :| t in s.notEmpty.woken;
      e := TakeResume(t, s.notFull.waiting);
    } else {
      t :| t in s.notFull.woken;
      e := PutResume(t, s.notEmpty.waiting);
    }
  }
}

/** The queue object: the protocol above carried out on the ring buffer. */
module BoundedBlockingQueues {
  import opened Options
  import opened Conditions
  import opened CircularQueues
  import P = BlockingQueueProtocol

  class BoundedBlockingQueue<T> {
    const queue: CircularQueue<T>
    var notEmpty: Condition
    var notFull: Condition
    var holding: map<Tid, T>
    ghost var put: seq<T>
    ghost var taken: seq<T>

    ghost predicate Valid()
      reads this, queue
    {
      && queue.Valid()
      && queue.pushes == |put| && queue.pops == |taken|
      && P.Inv(Model())
    }

    ghost function Model(): P.State<T>
      requires queue.Valid()
      reads this, queue
    {
      P.State(queue.capacity, queue.Contents(), notEmpty, notFull, holding, put, taken)
    }

    constructor (maxSize: nat)
      ensures Valid() && fresh(queue) && Model() == P.Init(maxSize)
    {
      queue := new CircularQueue(maxSize);
      notEmpty, notFull, holding := NOBODY, NOBODY, map[];
      put, taken := [], [];
    }

    /** Put from its first lock acquisition to its return, or to parking. */
    method PutEnter(t: Tid, x: T, wake: set<Tid>) returns (completed: bool)
      requires Valid() && P.Enabled(Model(), P.PutEnter(t, x, wake))
      modifies this, queue
      ensures Valid() && Model() == P.Apply(old(Model()), P.PutEnter(t, x, wake))
      ensures completed <==> put == old(put) + [x]
      ensures completed ==> queue.Contents() == old(queue.Contents()) + [x]
      ensures !completed ==> queue.Contents() == old(queue.Contents()) && t in holding && holding[t] == x
      ensures queue.capacity > 0 ==> queue.endIndex == |put| % queue.capacity
    {
      P.StepKeepsInv(Model(), P.PutEnter(t, x, wake));
      completed := PutLocked(t, x, wake);
    }

    /** The rest of a parked Put, after notFull_.Wait() has returned. */
    method PutResume(t: Tid, wake: set<Tid>) returns (completed: bool)
      requires Valid() && P.Enabled(Model(), P.PutResume(t, wake))
      modifies this, queue
      ensures Valid() && Model() == P.Apply(old(Model()), P.PutResume(t, wake))
      ensures completed <==> put == old(put) + [old(holding)[t]]
      ensures completed ==> queue.Contents() == old(queue.Contents()) + [old(holding)[t]] && t !in holding
      ensures !completed ==>
                queue.Contents() == old(queue.Contents()) && t in holding && holding[t] == old(holding)[t]
    {
      P.StepKeepsInv(Model(), P.PutResume(t, wake));
      var x := holding[t];
      notFull, holding := notFull.Resume(t), holding - {t};
      completed := PutLocked(t, x, wake);
    }

    method PutLocked(t: Tid, x: T, wake: set<Tid>) returns (completed: bool)
      requires queue.Valid() && queue.pushes == |put| && queue.pops == |taken|
      modifies this, queue
      ensures queue.Valid() && queue.pushes == |put| && queue.pops == |taken|
      ensures Model() == P.PutLocked(old(Model()), t, x, wake)
      ensures completed <==> put == old(put) + [x]
      ensures completed ==> queue.Contents() == old(queue.Contents()) + [x] && holding == old(holding)
      ensures !completed ==> queue.Contents() == old(queue.Contents()) && t in holding && holding[t] == x
    {
      assert |queue.Contents()| == queue.size;
      if queue.Full() {
        notFull := notFull.Wait(t);
        holding := holding[t := x];
        assert |put| != |old(put) + [x]|;
        return false;
      }
      queue.PushBack(x);
      put := put + [x];
      notEmpty := notEmpty.Notify(wake);
      return true;
    }

    /** Take from its first lock acquisition to its return, or to parking. */
    method TakeEnter(t: Tid, wake: set<Tid>) returns (front: Option<T>)
      requires Valid() && P.Enabled(Model(), P.TakeEnter(t, wake))
      modifies this, queue
      ensures Valid() && Model() == P.Apply(old(Model()), P.TakeEnter(t, wake))
      ensures front == if old(queue.size) == 0 then None else Some(old(Model()).items[0])
      ensures queue.capacity > 0 ==> queue.beginIndex == |taken| % queue.capacity
    {
      P.StepKeepsInv(Model(), P.TakeEnter(t, wake));
      front := TakeLocked(t, wake);
    }

    method TakeResume(t: Tid, wake: set<Tid>) returns (front: Option<T>)
      requires Valid() && P.Enabled(Model(), P.TakeResume(t, wake))
      modifies this, queue
      ensures Valid() && Model() == P.Apply(old(Model()), P.TakeResume(t, wake))
      ensures front == if old(queue.size) == 0 then None else Some(old(Model()).items[0])
    {
      P.StepKeepsInv(Model(), P.TakeResume(t, wake));
      notEmpty := notEmpty.Resume(t);
      front := TakeLocked(t, wake);
    }

    method TakeLocked(t: Tid, wake: set<Tid>) returns (front: Option<T>)
      requires queue.Valid() && queue.pushes == |put| && queue.pops == |taken|
      modifies this, queue
      ensures queue.Valid() && queue.pushes == |put| && queue.pops == |taken|
      ensures Model() == P.TakeLocked(old(Model()), t, wake)
      ensures front == if old(queue.size) == 0 then None else Some(old(Model()).items[0])
    {
      assert |queue.Contents()| == queue.size;
      if queue.Empty() {
        notEmpty := notEmpty.Wait(t);
        return None;
      }
      var x := queue.Front();
      queue.PopFront();
      taken := taken + [x];
      notFull := notFull.Notify(wake);
      return Some(x);
    }
  }
}
