/** Condition variables as wait sets: the primitive under the three monitors.
    A thread inside `Wait` is either parked (`waiting`) or already released and competing
    for the lock again (`woken`). Signals and spurious wakeups move threads from the first
    set to the second; only re-acquiring the lock takes a thread out of the second. */
module Conditions {

  type Tid = nat

  datatype Condition = Condition(waiting: set<Tid>, woken: set<Tid>) {

    ghost predicate Valid() { forall t :: !(t in waiting && t in woken) }

    predicate Inside(t: Tid) { t in waiting || t in woken }

    /** The outcomes a signal may have: it releases at least one parked thread, if there is one. */
    predicate MayWake(wake: set<Tid>) {
      wake <= waiting && (waiting != {} ==> wake != {})
    }

    function Wait(t: Tid): Condition { Condition(waiting + {t}, woken) }

    function Notify(wake: set<Tid>): Condition { Condition(waiting - wake, woken + wake) }

    function NotifyAll(): Condition { Condition({}, woken + waiting) }

    function Resume(t: Tid): Condition { Condition(waiting, woken - {t}) }
  }

  const NOBODY := Condition({}, {})

  /** No wakeup is lost: while somebody is parked, every available unit of work already has a
      released thread on its way to it. */
  ghost predicate Covered(c: Condition, work: int) {
    c.waiting != {} ==> work <= |c.woken|
  }

  /** Signalling once pays for one more unit of work. */
  lemma NotifyCovers(c: Condition, wake: set<Tid>, work: int)
    requires c.Valid() && c.MayWake(wake) && Covered(c, work)
    ensures c.Notify(wake).Valid() && Covered(c.Notify(wake), work + 1)
  {
    if c.waiting != {} {
      var w :| w in wake;
      var grown := c.woken + {w};
      assert |grown| == |c.woken| + 1;
      SubsetSize(grown, c.woken + wake);
    }
  }

  /** A released thread that consumes one unit keeps the rest covered. */
  lemma ResumeCovers(c: Condition, t: Tid, work: int)
    requires c.Valid() && t in c.woken && Covered(c, work)
    ensures c.Resume(t).Valid() && Covered(c.Resume(t), work - 1)
  {
    assert |c.woken - {t}| == |c.woken| - 1;
  }

  /** Releasing a thread early, as a spurious wakeup does, never uncovers work. */
  lemma ReleaseCovers(c: Condition, t: Tid, work: int)
    requires c.Valid() && t in c.waiting && Covered(c, work)
    ensures c.Notify({t}).Valid() && Covered(c.Notify({t}), work)
    ensures forall u :: c.Notify({t}).Inside(u) <==> c.Inside(u)
  {
    SubsetSize(c.woken, c.woken + {t});
  }

  lemma {:induction false} SubsetSize(a: set<Tid>, b: set<Tid>)
    requires a <= b
    ensures |a| <= |b|
  {
    if a != {} {
      var x :| x in a;
      SubsetSize(a - {x}, b - {x});
    }
  }
}
