/** What a store of kDisconnecting or a closing event does to a connection that is not open, as far
    as anybody can see: an assert fails at once or later, or a connection is destroyed twice.
    Shutdown tests state_ before its store, ForceClose does not; the poller reports a hang-up as
    long as the channel is registered. */
module LateStores {
  import opened Options
  import opened ConnStates
  import opened TcpServerProtocol

  /** No connection is destroyed twice, and a destroyed one satisfies the assert of its destructor. */
  ghost predicate EndsWell(s: State) {
    forall c <- s.conns :: s.conns[c].destroyed <= 1 && (s.conns[c].destroyed == 1 ==> s.conns[c].state == Disconnected)
  }

  /** Whatever happens next, as long as it is timely, no assert fails and all ends well. */
  ghost predicate Safe(s: State) {
    forall es, r :: Reaches(s, es, r) && Timely(s, es) ==> r.Some? && EndsWell(r.value)
  }

  lemma InvIsSafe(s: State)
    requires Inv(s)
    ensures Safe(s)
  {
    forall es, r | Reaches(s, es, r) && Timely(s, es)
      ensures r.Some? && EndsWell(r.value)
    {
      RunKeepsInv(s, es, r);
      forall c | c in r.value.conns
        ensures r.value.conns[c].destroyed <= 1
        ensures r.value.conns[c].destroyed == 1 ==> r.value.conns[c].state == Disconnected
      {
        assert ConnInv(r.value.queues, c in r.value.connections, c, r.value.conns[c]);
      }
    }
  }

  lemma EndedBadly(s: State)
    requires !EndsWell(s)
    ensures !Safe(s)
  {
    assert Reaches(s, [], Some(s)) && Timely(s, []);
  }

  /** A step that fails, or leads where all is not safe, starts where all is not safe. */
  lemma StepBack(s: State, e: Event)
    requires Enabled(s, e) && !Late(s, e)
    requires Apply(s, e).None? || !Safe(Apply(s, e).value)
    ensures !Safe(s)
  {
    var s' := Apply(s, e);
    if s'.None? {
      assert Continues(s', [], None);
      assert [e][1..] == [];
      assert Reaches(s, [e], None) && Timely(s, [e]);
    } else {
      var es, r :| Reaches(s'.value, es, r) && Timely(s'.value, es) && !(r.Some? && EndsWell(r.value));
      assert ([e] + es)[1..] == es;
      assert Reaches(s, [e] + es, r) && Timely(s, [e] + es);
    }
  }

  // How a run from any state leads there.

  /** The connection exists and its loop does. */
  predicate Known(s: State, c: Id) {
    c in s.conns && s.conns[c].loop < |s.queues|
  }

  predicate Closes(s: State, f: Functor, c: Id)
    requires c in s.conns
  {
    f == CloseIt(c) && IsOpen(s.conns[c])
  }

  ghost predicate Grows(q: seq<seq<Functor>>, q': seq<seq<Functor>>) {
    |q'| == |q| && forall l :: 0 <= l < |q| ==> q[l] <= q'[l]
  }

  function Delta(b: bool): nat { if b then 1 else 0 }

  /** What running f does to connection c: whom it destroys, removes or closes. */
  ghost predicate Effect(s: State, s': State, f: Functor, c: Id)
    requires Known(s, c)
  {
    var loop := s.conns[c].loop;
    && Known(s', c) && s'.conns[c].loop == loop && Grows(s.queues, s'.queues)
    && s'.conns[c].destroyed == s.conns[c].destroyed
         + Delta(f == Destroy(c) || (loop == 0 && (f == Remove(c) || Closes(s, f, c))))
    && Waiting(s'.queues, loop, Destroy(c)) == Waiting(s.queues, loop, Destroy(c)) + Delta(loop != 0 && f == Remove(c))
    && Waiting(s'.queues, 0, Remove(c)) == Waiting(s.queues, 0, Remove(c)) + Delta(loop != 0 && Closes(s, f, c))
    && s'.conns[c].state == if Closes(s, f, c) then Disconnected
                            else if f == Establish(c) then Connected else s.conns[c].state
  }

  lemma RemoveEffect(s: State, d: Id, c: Id)
    requires Known(s, c) && RemoveConnectionInLoop(s, d).Some?
    ensures Effect(s, RemoveConnectionInLoop(s, d).value, Remove(d), c)
  {
    if s.conns[d].loop != 0 {
      PostCounts(s.queues, s.conns[d].loop, Destroy(d));
    }
  }

  lemma CloseEffect(s: State, d: Id, c: Id)
    requires Known(s, c) && d in s.conns && IsOpen(s.conns[d]) && HandleClose(s, d).Some?
    ensures Effect(s, HandleClose(s, d).value, CloseIt(d), c)
  {
    if s.conns[d].loop != 0 {
      PostCounts(s.queues, 0, Remove(d));
    }
  }

  lemma RunEffect(s: State, f: Functor, c: Id)
    requires Known(s, c) && Run(s, f).Some?
    ensures Effect(s, Run(s, f).value, f, c)
  {
    match f
    case Remove(d) => RemoveEffect(s, d, c);
    case CloseIt(d) => if d in s.conns && IsOpen(s.conns[d]) { CloseEffect(s, d, c); }
    case _ =>
  }

  function Popped(s: State, l: nat): State
    requires l < |s.queues| && s.queues[l] != []
  {
    s.(queues := s.queues[l := s.queues[l][1..]])
  }

  /** Destroyed, or on the way to it: what a connection should owe at most once. */
  function Owed(s: State, c: Id): nat
    requires Known(s, c)
  {
    s.conns[c].destroyed + Waiting(s.queues, s.conns[c].loop, Destroy(c)) + Waiting(s.queues, 0, Remove(c))
  }

  /** No functor lets what is owed shrink, and closing adds to it. */
  lemma StepOwes(s: State, l: nat, c: Id)
    requires Known(s, c) && Enabled(s, RunFunctor(l)) && Apply(s, RunFunctor(l)).Some?
    ensures var s' := Apply(s, RunFunctor(l)).value;
      && Effect(Popped(s, l), s', s.queues[l][0], c)
      && Owed(s', c) >= Owed(s, c) + Delta(Closes(s, s.queues[l][0], c))
  {
    TakeCounts(s.queues, l);
    RunEffect(Popped(s, l), s.queues[l][0], c);
  }

  /** The k-th functor of a queue moves one place forward. */
  lemma MovesUp(s: State, l: nat, m: nat, k: nat)
    requires Enabled(s, RunFunctor(l)) && Apply(s, RunFunctor(l)).Some?
    requires m < |s.queues| && k < |s.queues[m]| && (m == l ==> k > 0)
    requires Grows(Popped(s, l).queues, Apply(s, RunFunctor(l)).value.queues)
    ensures var q := Apply(s, RunFunctor(l)).value.queues; var k' := if m == l then k - 1 else k;
      m < |q| && k' < |q[m]| && q[m][k'] == s.queues[m][k]
  {
    var p, q := Popped(s, l).queues, Apply(s, RunFunctor(l)).value.queues;
    assert p[m] <= q[m];
  }

  /** ConnectionEstablished is still to run, on a connection that has left kConnecting. */
  lemma {:induction false} EstablishFails(s: State, c: Id, k: nat)
    requires Known(s, c) && s.conns[c].state != Connecting
    requires k < |s.queues[s.conns[c].loop]| && s.queues[s.conns[c].loop][k] == Establish(c)
    ensures !Safe(s)
    decreases k
  {
    var l := s.conns[c].loop;
    var s' := Apply(s, RunFunctor(l));
    if s'.Some? {
      StepOwes(s, l, c);
      MovesUp(s, l, l, k);
      EstablishFails(s'.value, c, k - 1);
    }
    StepBack(s, RunFunctor(l));
  }

  /** What of c is destroyed, or will be by the first k functors of queue l, or waits in the
      other queue for what they post. */
  function Due(s: State, c: Id, l: nat, k: nat): nat
    requires Known(s, c) && l < |s.queues| && k <= |s.queues[l]|
  {
    s.conns[c].destroyed
    + (if l == s.conns[c].loop then multiset(s.queues[l][..k])[Destroy(c)]
       else Waiting(s.queues, s.conns[c].loop, Destroy(c)))
    + (if l == 0 then multiset(s.queues[l][..k])[Remove(c)] else 0)
  }

  lemma DueStays(s: State, c: Id, l: nat, k: nat)
    requires Known(s, c) && (l == 0 || l == s.conns[c].loop)
    requires Enabled(s, RunFunctor(l)) && 0 < k <= |s.queues[l]| && Apply(s, RunFunctor(l)).Some?
    ensures var s' := Apply(s, RunFunctor(l)).value;
      Known(s', c) && k - 1 <= |s'.queues[l]| && Due(s', c, l, k - 1) >= Due(s, c, l, k)
      && s'.conns[c].loop == s.conns[c].loop
  {
    StepOwes(s, l, c);
    TakeCounts(s.queues, l);
    var s' := Apply(s, RunFunctor(l)).value;
    assert Popped(s, l).queues[l] <= s'.queues[l];
    assert s'.queues[l][..k - 1] == s.queues[l][1..k];
    assert s.queues[l][..k] == [s.queues[l][0]] + s.queues[l][1..k];
  }

  /** A connection that owes two destructions gets them, or an assert fails before: run the base
      loop as far as its queue goes now, then the loop of the connection. */
  lemma {:induction false} OwedTwice(s: State, c: Id, l: nat, k: nat)
    requires Known(s, c) && (l == 0 || l == s.conns[c].loop) && k <= |s.queues[l]|
    requires Due(s, c, l, k) >= 2
    ensures !Safe(s)
    decreases if l == s.conns[c].loop then 0 else 1, k
  {
    var loop := s.conns[c].loop;
    if k > 0 {
      var s' := Apply(s, RunFunctor(l));
      if s'.Some? {
        DueStays(s, c, l, k);
        OwedTwice(s'.value, c, l, k - 1);
      }
      StepBack(s, RunFunctor(l));
    } else if l != loop {
      assert s.queues[loop][..|s.queues[loop]|] == s.queues[loop];
      OwedTwice(s, c, loop, |s.queues[loop]|);
    } else {
      EndedBadly(s);
    }
  }

  lemma OwedTwiceIsUnsafe(s: State, c: Id)
    requires Known(s, c) && Owed(s, c) >= 2
    ensures !Safe(s)
  {
    assert s.queues[0][..|s.queues[0]|] == s.queues[0];
    OwedTwice(s, c, 0, |s.queues[0]|);
  }

  /** ConnectionDestroyed is still to run, on a connection that has left kDisconnected. */
  lemma {:induction false} DestroyFails(s: State, c: Id, k: nat)
    requires Known(s, c) && s.conns[c].state != Disconnected && Owed(s, c) >= 1
    requires k < |s.queues[s.conns[c].loop]| && s.queues[s.conns[c].loop][k] == Destroy(c)
    ensures !Safe(s)
    decreases k
  {
    var l := s.conns[c].loop;
    var s' := Apply(s, RunFunctor(l));
    if s'.Some? {
      StepOwes(s, l, c);
      MovesUp(s, l, l, k);
      if s'.value.conns[c].state == Disconnected {
        OwedTwiceIsUnsafe(s'.value, c);
      } else {
        DestroyFails(s'.value, c, k - 1);
      }
    }
    StepBack(s, RunFunctor(l));
  }

  lemma {:induction false} RemoveFails(s: State, c: Id, k: nat)
    requires Known(s, c) && s.conns[c].state != Disconnected && Owed(s, c) >= 1
    requires k < |s.queues[0]| && s.queues[0][k] == Remove(c)
    ensures !Safe(s)
    decreases k
  {
    var s' := Apply(s, RunFunctor(0));
    if s'.Some? {
      StepOwes(s, 0, c);
      if s'.value.conns[c].state == Disconnected {
        OwedTwiceIsUnsafe(s'.value, c);
      } else if k == 0 {
        var q := s'.value.queues[s.conns[c].loop];
        assert Destroy(c) in q;
        var i :| 0 <= i < |q| && q[i] == Destroy(c);
        DestroyFails(s'.value, c, i);
      } else {
        MovesUp(s, 0, 0, k);
        RemoveFails(s'.value, c, k - 1);
      }
    }
    StepBack(s, RunFunctor(0));
  }

  /** A connection on its way to destruction that does not look closed. */
  lemma OwedAndOpenIsUnsafe(s: State, c: Id)
    requires Known(s, c) && s.conns[c].state != Disconnected && Owed(s, c) >= 1
    ensures !Safe(s)
  {
    var l := s.conns[c].loop;
    if s.conns[c].destroyed >= 1 {
      EndedBadly(s);
    } else if Waiting(s.queues, l, Destroy(c)) > 0 {
      assert Destroy(c) in s.queues[l];
      var k :| 0 <= k < |s.queues[l]| && s.queues[l][k] == Destroy(c);
      DestroyFails(s, c, k);
    } else {
      assert Remove(c) in s.queues[0];
      var k :| 0 <= k < |s.queues[0]| && s.queues[0][k] == Remove(c);
      RemoveFails(s, c, k);
    }
  }

  // The exact conditions.

  /** The life cycle is in order before every step of the run and after it. */
  ghost predicate SafeThroughout(s: State, es: seq<Event>)
    decreases |es|
  {
    Safe(s) && (es == [] || !Enabled(s, es[0]) || (
      var s' := Apply(s, es[0]); s'.Some? && SafeThroughout(s'.value, es[1..])))
  }

  /** The stage a connection is in, read off the invariant. */
  lemma StageOf(s: State, c: Id)
    requires Inv(s) && c in s.conns
    ensures Known(s, c)
    ensures s.conns[c].state == Connecting ==> Establish(c) in s.queues[s.conns[c].loop]
    ensures Owed(s, c) == Delta(s.conns[c].state == Disconnected)
  {
    assert ConnInv(s.queues, c in s.connections, c, s.conns[c]);
  }

  lemma LateStoreIsUnsafe(s: State, s': State, c: Id)
    requires Inv(s) && c in s.conns && !IsOpen(s.conns[c])
    requires s' == Store(s, c).(calls := s'.calls)
    ensures !Safe(s')
  {
    StageOf(s, c);
    if s.conns[c].state == Connecting {
      var q := s.queues[s.conns[c].loop];
      var k :| 0 <= k < |q| && q[k] == Establish(c);
      EstablishFails(s', c, k);
    } else {
      OwedAndOpenIsUnsafe(s', c);
    }
  }

  /** Closing at once a connection that is not open. */
  lemma LateCloseIsUnsafe(s: State, c: Id)
    requires Inv(s) && c in s.conns && !IsOpen(s.conns[c])
    ensures ForceCloseNow(s, c, true).Some? && !Safe(ForceCloseNow(s, c, true).value)
  {
    ForceCloseIsDefined(s, c, true);
    StageOf(s, c);
    var s1, s' := Store(s, c), ForceCloseNow(s, c, true).value;
    CloseEffect(s1, c, c);
    if s.conns[c].state == Connecting {
      var q := s.queues[s.conns[c].loop];
      var k :| 0 <= k < |q| && q[k] == Establish(c);
      assert s1.queues[s.conns[c].loop] <= s'.queues[s.conns[c].loop];
      EstablishFails(s', c, k);
    } else {
      assert Owed(s', c) >= 2;
      OwedTwiceIsUnsafe(s', c);
    }
  }

  /** ForceClose in any stage, from the connection's own loop or from another thread: everything
      that can follow is in order exactly when the connection is open at the call. */
  lemma ForceCloseNeedsOpen(s: State, c: Id, here: bool)
    requires Inv(s) && c in s.conns
    ensures ForceCloseNow(s, c, here).Some?
    ensures Safe(ForceCloseNow(s, c, here).value) <==> IsOpen(s.conns[c])
  {
    ForceCloseIsDefined(s, c, here);
    if IsOpen(s.conns[c]) {
      ForceCloseKeepsInv(s, c, here);
      InvIsSafe(ForceCloseNow(s, c, here).value);
    } else if here {
      LateCloseIsUnsafe(s, c);
    } else {
      LateStoreIsUnsafe(s, ForceCloseNow(s, c, here).value, c);
    }
  }

  lemma LateStepIsUnsafe(s: State, e: Event)
    requires Inv(s) && Enabled(s, e) && Late(s, e)
    ensures Apply(s, e).None? || !Safe(Apply(s, e).value)
  {
    match e
    case PeerCloses(c) =>
    case ForceClose(c, here) => ForceCloseNeedsOpen(s, c, here);
    case Proceed(call) => LateStoreIsUnsafe(s, Apply(s, e).value, call.c);
  }

  /** A run keeps the life cycle in order throughout exactly when every store of kDisconnecting and
      every closing event in it meets an open connection: no close comes between the test of
      Shutdown and its store, ForceClose is called while the connection is open, and no hang-up is
      handled between a close and ConnectionDestroyed. */
  lemma {:induction false} OrderNeedsTimeliness(s: State, es: seq<Event>, r: Option<State>)
    requires Inv(s) && Reaches(s, es, r)
    ensures SafeThroughout(s, es) <==> Timely(s, es)
    decreases |es|
  {
    InvIsSafe(s);
    if es != [] {
      if Late(s, es[0]) {
        LateStepIsUnsafe(s, es[0]);
      } else {
        StepIsSafe(s, es[0]);
        OrderNeedsTimeliness(Apply(s, es[0]).value, es[1..], r);
      }
    }
  }

  predicate InLoop(e: Event) {
    e.Shutdown? ==> e.here
  }

  ghost predicate NoStorePending(s: State) {
    forall call <- s.calls :: !call.StoreShutdown?
  }

  /** Every ForceClose and every closing event of the run meets an open connection. */
  ghost predicate ClosedWhileOpen(s: State, es: seq<Event>)
    decreases |es|
  {
    es == [] || !Enabled(s, es[0]) || (
      && (es[0].ForceClose? || es[0].PeerCloses? ==> IsOpen(s.conns[es[0].c]))
      && var s' := Apply(s, es[0]); s'.None? || ClosedWhileOpen(s'.value, es[1..]))
  }

  /** If Shutdown is only called in the connection's own loop, it adds nothing to that. */
  lemma {:induction false} InLoopShutdownIsTimely(s: State, es: seq<Event>)
    requires NoStorePending(s) && forall e <- es :: InLoop(e)
    ensures Timely(s, es) <==> ClosedWhileOpen(s, es)
    decreases |es|
  {
    if es != [] && Enabled(s, es[0]) {
      assert InLoop(es[0]);
      var s' := Apply(s, es[0]);
      if s'.Some? {
        CallsOnlyProceed(s, es[0]);
        InLoopShutdownIsTimely(s'.value, es[1..]);
      }
    }
  }

  lemma CallsOnlyProceed(s: State, e: Event)
    requires NoStorePending(s) && InLoop(e) && Enabled(s, e) && Apply(s, e).Some?
    ensures NoStorePending(Apply(s, e).value)
  {
  }

  lemma Then(s: State, e: Event, es: seq<Event>, r: Option<State>)
    requires Enabled(s, e) && Continues(Apply(s, e), es, r)
    ensures Reaches(s, [e] + es, r)
  {
    assert ([e] + es)[1..] == es;
  }

  predicate Queues(s: State, q0: seq<Functor>, q1: seq<Functor>) {
    |s.queues| == 2 && s.queues[0] == q0 && s.queues[1] == q1
  }

  /** The two functors of a removal, run with the connection not closed any more. */
  const REMOVAL := [RunFunctor(0)] + ([RunFunctor(1)] + [])

  lemma DestroyWillFail(s: State)
    requires 1 in s.conns && s.conns[1].loop == 1 && s.conns[1].state == Disconnecting
    requires Queues(s, [Remove(1)], [])
    ensures Reaches(s, REMOVAL, None)
  {
    var s' := Apply(s, RunFunctor(0)).value;
    assert Queues(s', [], [Destroy(1)]);
    assert Continues(None, [], None);
    Then(s', RunFunctor(1), [], None);
    Then(s, RunFunctor(0), [RunFunctor(1)] + [], None);
  }

  lemma LateStoreThenFails(s: State)
    requires 1 in s.conns && s.conns[1].loop == 1 && StoreShutdown(1) in s.calls
    requires Queues(s, [Remove(1)], [])
    ensures Reaches(s, [Proceed(StoreShutdown(1))] + REMOVAL, None)
  {
    var s' := Apply(s, Proceed(StoreShutdown(1))).value;
    assert s'.queues == s.queues && s'.conns[1] == s.conns[1].(state := Disconnecting);
    DestroyWillFail(s');
    Then(s, Proceed(StoreShutdown(1)), REMOVAL, None);
  }

  /** Such a race from the start: another thread finds the connection connected, the peer closes
      it, the thread stores kDisconnecting, and the assert of ConnectionDestroyed fails. */
  lemma RaceFails()
    ensures Reaches(Init(2), [NewConnection(1)] + ([RunFunctor(1)] + ([Shutdown(1, false)] + ([PeerCloses(1)]
                             + ([Proceed(StoreShutdown(1))] + REMOVAL)))), None)
  {
    var s1 := Apply(Init(2), NewConnection(1)).value;
    assert Queues(s1, [], [Establish(1)]);
    var s2 := Apply(s1, RunFunctor(1)).value;
    assert Queues(s2, [], []);
    var s3 := Apply(s2, Shutdown(1, false)).value;
    var s4 := Apply(s3, PeerCloses(1)).value;
    assert Queues(s4, [Remove(1)], []);
    LateStoreThenFails(s4);
    var end := [Proceed(StoreShutdown(1))] + REMOVAL;
    Then(s3, PeerCloses(1), end, None);
    Then(s2, Shutdown(1, false), [PeerCloses(1)] + end, None);
    Then(s1, RunFunctor(1), [Shutdown(1, false)] + ([PeerCloses(1)] + end), None);
    Then(Init(2), NewConnection(1), [RunFunctor(1)] + ([Shutdown(1, false)] + ([PeerCloses(1)] + end)), None);
  }

  /** With no I/O threads the peer's closing frees the connection under its own event handler. */
  lemma FreedInOwnHandler() returns (s: State)
    ensures Reaches(Init(1), [NewConnection(0)] + ([PeerCloses(1)] + []), Some(s)) && 1 in s.conns && !Held(s, 1)
  {
    var s1 := Apply(Init(1), NewConnection(0)).value;
    s := Apply(s1, PeerCloses(1)).value;
    assert s.queues[0] == [];
    Then(s1, PeerCloses(1), [], Some(s));
    Then(Init(1), NewConnection(0), [PeerCloses(1)] + [], Some(s));
  }

  /** A Send that has found the connection connected is slow to post: the connection is closed,
      removed and freed, and its SendInLoop is next in the loop. */
  lemma SendOutlivesItsConnection() returns (s: State)
    ensures Reaches(Init(2), [NewConnection(1)] + ([RunFunctor(1)] + ([Send(1)] + ([PeerCloses(1)]
                             + ([RunFunctor(0)] + ([Proceed(PostSend(1))] + ([RunFunctor(1)] + [])))))), Some(s))
    ensures 1 in s.conns && Queues(s, [], [SendIt(1)]) && !Held(s, 1)
  {
    var s1 := Apply(Init(2), NewConnection(1)).value;
    assert Queues(s1, [], [Establish(1)]);
    var s2 := Apply(s1, RunFunctor(1)).value;
    assert Queues(s2, [], []);
    var s3 := Apply(s2, Send(1)).value;
    assert s3.calls == multiset{PostSend(1)};
    var s4 := Apply(s3, PeerCloses(1)).value;
    assert Queues(s4, [Remove(1)], []);
    s := RemovedThenPosted(s4);
    var end := [RunFunctor(0)] + ([Proceed(PostSend(1))] + ([RunFunctor(1)] + []));
    Then(s3, PeerCloses(1), end, Some(s));
    Then(s2, Send(1), [PeerCloses(1)] + end, Some(s));
    Then(s1, RunFunctor(1), [Send(1)] + ([PeerCloses(1)] + end), Some(s));
    Then(Init(2), NewConnection(1), [RunFunctor(1)] + ([Send(1)] + ([PeerCloses(1)] + end)), Some(s));
  }

  lemma RemovedThenPosted(s4: State) returns (s: State)
    requires 1 in s4.conns && s4.conns[1].loop == 1 && s4.conns[1].state == Disconnected
    requires s4.connections == {1} && s4.calls == multiset{PostSend(1)} && Queues(s4, [Remove(1)], [])
    ensures Reaches(s4, [RunFunctor(0)] + ([Proceed(PostSend(1))] + ([RunFunctor(1)] + [])), Some(s))
    ensures 1 in s.conns && Queues(s, [], [SendIt(1)]) && !Held(s, 1)
  {
    var s5 := Apply(s4, RunFunctor(0)).value;
    assert Queues(s5, [], [Destroy(1)]);
    var s6 := Apply(s5, Proceed(PostSend(1))).value;
    assert Queues(s6, [], [Destroy(1), SendIt(1)]) && s6.calls == multiset{};
    s := Apply(s6, RunFunctor(1)).value;
    Then(s6, RunFunctor(1), [], Some(s));
    Then(s5, Proceed(PostSend(1)), [RunFunctor(1)] + [], Some(s));
    Then(s4, RunFunctor(0), [Proceed(PostSend(1))] + ([RunFunctor(1)] + []), Some(s));
  }
}
