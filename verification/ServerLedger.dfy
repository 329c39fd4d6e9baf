/** The server as its callers see it: for every loop a growing list of what was posted and a count
    of what has run, for every connection its state, all told from the events alone; and what
    becomes of the connections somebody wants closed. */
module ServerLedger {
  import opened Options
  import opened ConnStates
  import opened TcpServerProtocol

  datatype Ledger = Ledger(
    count: nat,                // connections created
    loops: map<Id, nat>,       // the loop each was created for
    states: map<Id, ConnState>,
    posts: seq<seq<Functor>>,  // per loop: everything ever posted
    runs: seq<nat>,            // and how much of it has run
    calls: multiset<Call>)

  function Blank(loops: nat): Ledger {
    Ledger(0, map[], map[], seq(loops, _ => []), seq(loops, _ => 0), multiset{})
  }

  function NotePost(l: Ledger, loop: nat, f: Functor): Ledger {
    if loop < |l.posts| then l.(posts := l.posts[loop := l.posts[loop] + [f]]) else l
  }

  /** Posted to the loop of the connection it is about. */
  function NoteOwnPost(l: Ledger, f: Functor): Ledger {
    if f.c in l.loops then NotePost(l, l.loops[f.c], f) else l
  }

  function NoteState(l: Ledger, c: Id, state: ConnState): Ledger {
    l.(states := l.states[c := state])
  }

  predicate IsIn(l: Ledger, c: Id, state: ConnState) {
    c in l.states && l.states[c] == state
  }

  predicate LooksOpen(l: Ledger, c: Id) {
    c in l.states && OpenState(l.states[c])
  }

  /** A close in an I/O loop asks the base loop to remove the connection. */
  function NoteClose(l: Ledger, c: Id): Ledger {
    var l1 := NoteState(l, c, Disconnected);
    if c in l.loops && l.loops[c] != 0 then NotePost(l1, 0, Remove(c)) else l1
  }

  function NoteCreate(l: Ledger, loop: nat): Ledger {
    var c := l.count + 1;
    var l1 := NoteState(l.(count := c, loops := l.loops[c := loop]), c, if loop == 0 then Connected else Connecting);
    if loop == 0 then l1 else NotePost(l1, loop, Establish(c))
  }

  /** The next functor of the loop runs. */
  function NoteRun(l: Ledger, loop: nat): Ledger {
    if loop >= |l.runs| || loop >= |l.posts| || l.runs[loop] >= |l.posts[loop]| then l
    else
      var l1 := l.(runs := l.runs[loop := l.runs[loop] + 1]);
      match l.posts[loop][l.runs[loop]]
      case Establish(c) => NoteState(l1, c, Connected)
      case Remove(c) => if c in l.loops && l.loops[c] != 0 then NoteOwnPost(l1, Destroy(c)) else l1
      case Destroy(_) => l1
      case ShutIt(_) => l1
      case SendIt(_) => l1
      case CloseIt(c) => if LooksOpen(l, c) then NoteClose(l1, c) else l1
  }

  function NoteProceed(l: Ledger, call: Call): Ledger {
    var l1 := l.(calls := l.calls - multiset{call});
    match call
    case StoreShutdown(c) => NoteState(l1, c, Disconnecting).(calls := l1.calls + multiset{PostShutdown(c)})
    case PostShutdown(c) => NoteOwnPost(l1, ShutIt(c))
    case PostClose(c) => NoteOwnPost(l1, CloseIt(c))
    case PostSend(c) => NoteOwnPost(l1, SendIt(c))
  }

  function NoteCall(l: Ledger, call: Call): Ledger {
    l.(calls := l.calls + multiset{call})
  }

  function Note(l: Ledger, e: Event): Ledger {
    match e
    case NewConnection(loop) => NoteCreate(l, loop)
    case RunFunctor(loop) => NoteRun(l, loop)
    case PeerCloses(c) => NoteClose(l, c)
    case Send(c) => if IsIn(l, c, Connected) then NoteCall(l, PostSend(c)) else l
    case Shutdown(c, here) =>
      if !IsIn(l, c, Connected) then l
      else if here then NoteState(l, c, Disconnecting)
      else NoteCall(l, StoreShutdown(c))
    case ForceClose(c, here) =>
      if here then NoteClose(l, c) else NoteCall(NoteState(l, c, Disconnecting), PostClose(c))
    case Proceed(call) => NoteProceed(l, call)
  }

  function Noted(l: Ledger, es: seq<Event>): Ledger
    decreases |es|
  {
    if es == [] then l else Noted(Note(l, es[0]), es[1..])
  }

  ghost predicate QueuesAgree(queues: seq<seq<Functor>>, posts: seq<seq<Functor>>, runs: seq<nat>) {
    && |queues| == |posts| == |runs| > 0
    && forall k :: 0 <= k < |queues| ==> runs[k] <= |posts[k]| && queues[k] == posts[k][runs[k]..]
  }

  ghost predicate ConnsAgree(conns: map<Id, Conn>, loops: map<Id, nat>, states: map<Id, ConnState>, n: nat) {
    forall c ::
      && (c in conns <==> c in loops) && (c in conns <==> c in states)
      && (c in conns ==> conns[c].loop == loops[c] < n && conns[c].state == states[c])
  }

  ghost predicate Agrees(s: State, l: Ledger) {
    && s.connCount == l.count && s.calls == l.calls
    && ConnsAgree(s.conns, l.loops, l.states, |s.queues|) && QueuesAgree(s.queues, l.posts, l.runs)
  }

  lemma PostAgrees(s: State, l: Ledger, loop: nat, f: Functor)
    requires Agrees(s, l) && loop < |s.queues|
    ensures Agrees(Post(s, loop, f), NotePost(l, loop, f))
  {
    var q := l.posts[loop];
    assert (q + [f])[l.runs[loop]..] == q[l.runs[loop]..] + [f];
  }

  lemma TakeAgrees(s: State, l: Ledger, loop: nat)
    requires Agrees(s, l) && loop < |s.queues| && s.queues[loop] != []
    ensures l.runs[loop] < |l.posts[loop]| && l.posts[loop][l.runs[loop]] == s.queues[loop][0]
    ensures Agrees(s.(queues := s.queues[loop := s.queues[loop][1..]]), l.(runs := l.runs[loop := l.runs[loop] + 1]))
  {
    assert l.posts[loop][l.runs[loop]..][1..] == l.posts[loop][l.runs[loop] + 1..];
  }

  /** A connection changes its state and stays in its loop. */
  lemma StateAgrees(s: State, l: Ledger, c: Id, conn: Conn)
    requires Agrees(s, l) && c in s.conns && conn.loop == s.conns[c].loop
    ensures Agrees(s.(conns := s.conns[c := conn]), NoteState(l, c, conn.state))
  {
  }

  /** What a connection counts is not in the ledger, and neither is the list. */
  lemma CountsAgree(s: State, l: Ledger, c: Id, conn: Conn, listed: set<Id>)
    requires Agrees(s, l) && c in s.conns && conn.loop == s.conns[c].loop && conn.state == s.conns[c].state
    ensures Agrees(s.(conns := s.conns[c := conn], connections := listed), l)
  {
  }

  /** Another connection, in a loop of the server. */
  lemma NewAgrees(s: State, l: Ledger, loop: nat)
    requires Agrees(s, l) && loop < |s.queues|
    ensures var c := l.count + 1;
      Agrees(Create(s, loop), NoteState(l.(count := c, loops := l.loops[c := loop]), c, Connecting))
  {
  }

  lemma CreateAgrees(s: State, l: Ledger, loop: nat)
    requires Agrees(s, l) && loop < |s.queues| && Accept(s, loop).Some?
    ensures Agrees(Accept(s, loop).value, NoteCreate(l, loop))
  {
    var c, s1 := s.connCount + 1, Create(s, loop);
    var l1 := NoteState(l.(count := c, loops := l.loops[c := loop]), c, Connecting);
    NewAgrees(s, l, loop);
    if loop == 0 {
      StateAgrees(s1, l1, c, Established(s1.conns[c]));
      assert NoteState(l1, c, Connected) == NoteCreate(l, loop);
    } else {
      PostAgrees(s1, l1, loop, Establish(c));
    }
  }

  lemma CloseAgrees(s: State, l: Ledger, c: Id)
    requires Agrees(s, l) && HandleClose(s, c).Some?
    ensures Agrees(HandleClose(s, c).value, NoteClose(l, c))
  {
    var conn := s.conns[c].(state := Disconnected, reading := false);
    var s1 := s.(conns := s.conns[c := conn]);
    StateAgrees(s, l, c, conn);
    if conn.loop == 0 {
      CountsAgree(s1, NoteState(l, c, Disconnected), c, Destroyed(conn), s.connections - {c});
    } else {
      PostAgrees(s1, NoteState(l, c, Disconnected), 0, Remove(c));
    }
  }

  lemma RemoveAgrees(s: State, l: Ledger, c: Id)
    requires Agrees(s, l) && RemoveConnectionInLoop(s, c).Some?
    ensures Agrees(RemoveConnectionInLoop(s, c).value,
                   if c in l.loops && l.loops[c] != 0 then NoteOwnPost(l, Destroy(c)) else l)
  {
    var s1 := s.(connections := s.connections - {c});
    if s.conns[c].loop == 0 {
      CountsAgree(s, l, c, Destroyed(s.conns[c]), s.connections - {c});
    } else {
      assert Agrees(s1, l);
      PostAgrees(s1, l, s.conns[c].loop, Destroy(c));
    }
  }

  lemma RunFunctorAgrees(s: State, l: Ledger, loop: nat)
    requires Agrees(s, l) && Enabled(s, RunFunctor(loop)) && Apply(s, RunFunctor(loop)).Some?
    ensures Agrees(Apply(s, RunFunctor(loop)).value, NoteRun(l, loop))
  {
    TakeAgrees(s, l, loop);
    var s1 := s.(queues := s.queues[loop := s.queues[loop][1..]]);
    var l1 := l.(runs := l.runs[loop := l.runs[loop] + 1]);
    match s.queues[loop][0]
    case Establish(c) => StateAgrees(s1, l1, c, Established(s1.conns[c]));
    case Remove(c) => RemoveAgrees(s1, l1, c);
    case Destroy(c) =>
      CountsAgree(s1, l1, c, Destroyed(s1.conns[c]), s1.connections);
    case CloseIt(c) => if c in s.conns && IsOpen(s.conns[c]) { CloseAgrees(s1, l1, c); }
    case ShutIt(_) =>
    case SendIt(_) =>
  }

  lemma ProceedAgrees(s: State, l: Ledger, call: Call)
    requires Agrees(s, l) && Enabled(s, Proceed(call)) && ProceedCall(s, call).Some?
    ensures Agrees(ProceedCall(s, call).value, NoteProceed(l, call))
  {
    var c := call.c;
    var s1, l1 := s.(calls := s.calls - multiset{call}), l.(calls := l.calls - multiset{call});
    assert Agrees(s1, l1);
    match call
    case StoreShutdown(_) => StateAgrees(s1, l1, c, s1.conns[c].(state := Disconnecting));
    case PostShutdown(_) => PostAgrees(s1, l1, s1.conns[c].loop, ShutIt(c));
    case PostClose(_) => PostAgrees(s1, l1, s1.conns[c].loop, CloseIt(c));
    case PostSend(_) => PostAgrees(s1, l1, s1.conns[c].loop, SendIt(c));
  }

  lemma ShutdownAgrees(s: State, l: Ledger, c: Id, here: bool)
    requires Agrees(s, l) && c in s.conns
    ensures Agrees(BeginShutdown(s, c, here), Note(l, Shutdown(c, here)))
  {
    StateAgrees(s, l, c, s.conns[c].(state := Disconnecting));
  }

  lemma ForceCloseAgrees(s: State, l: Ledger, c: Id, here: bool)
    requires Agrees(s, l) && c in s.conns && ForceCloseNow(s, c, here).Some?
    ensures Agrees(ForceCloseNow(s, c, here).value, Note(l, ForceClose(c, here)))
  {
    StateAgrees(s, l, c, s.conns[c].(state := Disconnecting));
    if here {
      CloseAgrees(Store(s, c), NoteState(l, c, Disconnecting), c);
      ClosedIsClosed(l, c);
    }
  }

  lemma ClosedIsClosed(l: Ledger, c: Id)
    ensures NoteClose(NoteState(l, c, Disconnecting), c) == NoteClose(l, c)
  {
    assert l.states[c := Disconnecting][c := Disconnected] == l.states[c := Disconnected];
  }

  lemma StepAgrees(s: State, l: Ledger, e: Event)
    requires Agrees(s, l) && Enabled(s, e) && Apply(s, e).Some?
    ensures Agrees(Apply(s, e).value, Note(l, e))
  {
    match e
    case NewConnection(loop) => CreateAgrees(s, l, loop);
    case RunFunctor(loop) => RunFunctorAgrees(s, l, loop);
    case PeerCloses(c) => CloseAgrees(s, l, c);
    case Send(c) =>
    case Shutdown(c, here) => ShutdownAgrees(s, l, c, here);
    case ForceClose(c, here) => ForceCloseAgrees(s, l, c, here);
    case Proceed(call) => ProceedAgrees(s, l, call);
  }

  lemma {:induction false} RunAgrees(s: State, l: Ledger, es: seq<Event>, s': State)
    requires Agrees(s, l) && Reaches(s, es, Some(s'))
    ensures Agrees(s', Noted(l, es))
    decreases |es|
  {
    if es != [] {
      StepAgrees(s, l, es[0]);
      RunAgrees(Apply(s, es[0]).value, Note(l, es[0]), es[1..], s');
    }
  }

  /** In every run, timely or not, up to the first assert that fails: every connection is in the loop
      it was created for and in the state its calls and closing events have left it in, every loop
      runs what was posted to it in the order of posting, and the calls under way are those begun
      and not finished. */
  lemma ServerFollowsItsCalls(loops: nat, es: seq<Event>, s: State)
    requires loops > 0 && Reaches(Init(loops), es, Some(s))
    ensures var l := Noted(Blank(loops), es);
      && s.connCount == l.count && s.calls == l.calls
      && (forall c :: c in s.conns <==> c in l.states)
      && (forall c <- s.conns :: c in l.loops && s.conns[c].loop == l.loops[c] && s.conns[c].state == l.states[c])
      && |s.queues| == |l.posts| == |l.runs|
      && forall k :: 0 <= k < |s.queues| ==> l.runs[k] <= |l.posts[k]| && s.queues[k] == l.posts[k][l.runs[k]..]
  {
    RunAgrees(Init(loops), Blank(loops), es, s);
  }

  // Connections that somebody wants closed.

  /** The peer closes the connection, or ForceClose is called on it by any thread. */
  predicate AsksToClose(e: Event, c: Id) {
    e == PeerCloses(c) || (e.ForceClose? && e.c == c)
  }

  /** A ForceClose by another thread is still on its way. */
  ghost predicate OnItsWay(s: State, c: Id) {
    PostClose(c) in s.calls || exists k :: 0 <= k < |s.queues| && CloseIt(c) in s.queues[k]
  }

  /** What was asked for is done or on its way, and nothing else is. */
  ghost predicate Settled(s: State, c: Id, asked: bool) {
    if asked then c in s.conns && s.conns[c].state != Connecting && (IsOpen(s.conns[c]) ==> OnItsWay(s, c))
    else !OnItsWay(s, c) && (c in s.conns ==> s.conns[c].state != Disconnected)
  }

  /** A step that leaves the connection alone, and what is on its way to it. */
  lemma OthersSettle(s: State, s': State, c: Id, asked: bool)
    requires Settled(s, c, asked) && (OnItsWay(s', c) <==> OnItsWay(s, c))
    requires c in s.conns ==> c in s'.conns && s'.conns[c].state == s.conns[c].state
    requires c !in s.conns && c in s'.conns ==> s'.conns[c].state != Disconnected
    ensures Settled(s', c, asked)
  {
  }

  lemma PostOnItsWay(s: State, loop: nat, f: Functor, c: Id)
    requires loop < |s.queues|
    ensures OnItsWay(Post(s, loop, f), c) <==> OnItsWay(s, c) || f == CloseIt(c)
  {
    var s' := Post(s, loop, f);
    forall k | 0 <= k < |s.queues|
      ensures CloseIt(c) in s'.queues[k] <==> CloseIt(c) in s.queues[k] || (k == loop && f == CloseIt(c))
    {
    }
    if f == CloseIt(c) {
      assert CloseIt(c) in s'.queues[loop];
    }
  }

  /** Taking the next functor off a queue: the close is still on its way, unless that was it. */
  lemma TakeOnItsWay(s: State, loop: nat, c: Id)
    requires loop < |s.queues| && s.queues[loop] != []
    ensures var s' := s.(queues := s.queues[loop := s.queues[loop][1..]]);
      OnItsWay(s, c) <==> OnItsWay(s', c) || s.queues[loop][0] == CloseIt(c)
  {
    var q, s' := s.queues[loop], s.(queues := s.queues[loop := s.queues[loop][1..]]);
    assert q == [q[0]] + q[1..];
    assert forall k :: 0 <= k < |s.queues| && k != loop ==> s'.queues[k] == s.queues[k];
    assert s'.queues[loop] == q[1..];
    if OnItsWay(s, c) && PostClose(c) !in s.calls {
      var k :| 0 <= k < |s.queues| && CloseIt(c) in s.queues[k];
      assert k != loop ==> CloseIt(c) in s'.queues[k];
    }
    if q[0] == CloseIt(c) {
      assert CloseIt(c) in s.queues[loop];
    }
  }

  /** Neither the removal of a connection nor its close puts a forced close on its way. */
  lemma RemoveSettles(s: State, d: Id, c: Id)
    requires RemoveConnectionInLoop(s, d).Some?
    ensures var s' := RemoveConnectionInLoop(s, d).value;
      (OnItsWay(s', c) <==> OnItsWay(s, c)) && (forall x :: x in s'.conns <==> x in s.conns)
      && forall x <- s.conns :: s'.conns[x].state == s.conns[x].state
  {
    var s1 := s.(connections := s.connections - {d});
    assert OnItsWay(s1, c) <==> OnItsWay(s, c);
    if s.conns[d].loop != 0 {
      PostOnItsWay(s1, s.conns[d].loop, Destroy(d), c);
    }
  }

  lemma CloseSettles(s: State, d: Id, c: Id)
    requires HandleClose(s, d).Some?
    ensures var s' := HandleClose(s, d).value;
      (OnItsWay(s', c) <==> OnItsWay(s, c)) && (forall x :: x in s'.conns <==> x in s.conns)
      && forall x <- s.conns :: s'.conns[x].state == if x == d then Disconnected else s.conns[x].state
  {
    var s1 := s.(conns := s.conns[d := s.conns[d].(state := Disconnected, reading := false)]);
    assert OnItsWay(s1, c) <==> OnItsWay(s, c);
    if s.conns[d].loop == 0 {
      RemoveSettles(s1, d, c);
    } else {
      PostOnItsWay(s1, 0, Remove(d), c);
    }
  }

  lemma RunFunctorSettles(s: State, loop: nat, c: Id, asked: bool)
    requires Enabled(s, RunFunctor(loop)) && Apply(s, RunFunctor(loop)).Some? && Settled(s, c, asked)
    ensures Settled(Apply(s, RunFunctor(loop)).value, c, asked)
  {
    TakeOnItsWay(s, loop, c);
    var s1, s' := s.(queues := s.queues[loop := s.queues[loop][1..]]), Apply(s, RunFunctor(loop)).value;
    match s.queues[loop][0]
    case Establish(d) => assert OnItsWay(s', c) <==> OnItsWay(s1, c);
    case Remove(d) => RemoveSettles(s1, d, c);
    case Destroy(d) => assert OnItsWay(s', c) <==> OnItsWay(s1, c);
    case CloseIt(d) => if d in s.conns && IsOpen(s.conns[d]) { CloseSettles(s1, d, c); }
    case ShutIt(_) =>
    case SendIt(_) =>
  }

  lemma ProceedSettles(s: State, call: Call, c: Id, asked: bool)
    requires Enabled(s, Proceed(call)) && ProceedCall(s, call).Some? && !Late(s, Proceed(call)) && Settled(s, c, asked)
    ensures Settled(ProceedCall(s, call).value, c, asked)
  {
    var s1, d := s.(calls := s.calls - multiset{call}), call.c;
    assert forall k :: 0 <= k < |s.queues| ==> s1.queues[k] == s.queues[k];
    match call
    case StoreShutdown(_) => assert OnItsWay(ProceedCall(s, call).value, c) <==> OnItsWay(s, c);
    case PostShutdown(_) => PostOnItsWay(s1, s.conns[d].loop, ShutIt(d), c);
    case PostClose(_) => PostOnItsWay(s1, s.conns[d].loop, CloseIt(d), c);
    case PostSend(_) => PostOnItsWay(s1, s.conns[d].loop, SendIt(d), c);
  }

  lemma CreateSettles(s: State, loop: nat, c: Id, asked: bool)
    requires s.connCount + 1 !in s.conns && loop < |s.queues| && Accept(s, loop).Some? && Settled(s, c, asked)
    ensures Settled(Accept(s, loop).value, c, asked)
  {
    var d, s1 := s.connCount + 1, Create(s, loop);
    assert d !in s.conns && (OnItsWay(s1, c) <==> OnItsWay(s, c));
    if loop == 0 {
      assert OnItsWay(Accept(s, loop).value, c) <==> OnItsWay(s1, c);
    } else {
      PostOnItsWay(s1, loop, Establish(d), c);
    }
  }

  lemma ForceCloseSettles(s: State, d: Id, here: bool, c: Id, asked: bool)
    requires d in s.conns && IsOpen(s.conns[d]) && ForceCloseNow(s, d, here).Some? && Settled(s, c, asked)
    ensures Settled(ForceCloseNow(s, d, here).value, c, asked || d == c)
  {
    var s1 := Store(s, d);
    assert OnItsWay(s1, c) <==> OnItsWay(s, c);
    if here {
      CloseSettles(s1, d, c);
    } else {
      var s' := ForceCloseNow(s, d, here).value;
      assert OnItsWay(s', c) <==> OnItsWay(s, c) || d == c;
    }
  }

  lemma CallSettles(s: State, e: Event, c: Id, asked: bool)
    requires (e.Send? || e.Shutdown?) && e.c in s.conns && Settled(s, c, asked)
    ensures Settled(Apply(s, e).value, c, asked)
  {
    var s' := Apply(s, e).value;
    assert OnItsWay(s', c) <==> OnItsWay(s, c);
  }

  lemma PeerSettles(s: State, d: Id, c: Id, asked: bool)
    requires HandleClose(s, d).Some? && Settled(s, c, asked)
    ensures Settled(HandleClose(s, d).value, c, asked || d == c)
  {
    CloseSettles(s, d, c);
  }

  lemma StepSettles(s: State, e: Event, c: Id, asked: bool)
    requires s.connCount + 1 !in s.conns && Enabled(s, e) && Apply(s, e).Some? && !Late(s, e) && Settled(s, c, asked)
    ensures Settled(Apply(s, e).value, c, asked || AsksToClose(e, c))
  {
    match e
    case NewConnection(loop) => CreateSettles(s, loop, c, asked);
    case RunFunctor(loop) => RunFunctorSettles(s, loop, c, asked);
    case PeerCloses(d) => PeerSettles(s, d, c, asked);
    case Send(_) => CallSettles(s, e, c, asked);
    case Shutdown(_, _) => CallSettles(s, e, c, asked);
    case ForceClose(d, here) => ForceCloseSettles(s, d, here, c, asked);
    case Proceed(call) => ProceedSettles(s, call, c, asked);
  }

  lemma {:induction false} RunSettles(s: State, es: seq<Event>, s': State, c: Id, asked: bool)
    requires Inv(s) && Settled(s, c, asked) && Reaches(s, es, Some(s')) && Timely(s, es)
    ensures Inv(s') && Settled(s', c, asked || exists e <- es :: AsksToClose(e, c))
    decreases |es|
  {
    if es != [] {
      StepIsSafe(s, es[0]);
      StepSettles(s, es[0], c, asked);
      RunSettles(Apply(s, es[0]).value, es[1..], s', c, asked || AsksToClose(es[0], c));
      SomebodyAsks(es, c);
    }
  }

  lemma SomebodyAsks(es: seq<Event>, c: Id)
    requires es != []
    ensures (exists e <- es :: AsksToClose(e, c)) <==> AsksToClose(es[0], c) || exists e <- es[1..] :: AsksToClose(e, c)
  {
    assert es == [es[0]] + es[1..];
  }

  lemma InitSettles(loops: nat, c: Id)
    requires loops > 0
    ensures Inv(Init(loops)) && Settled(Init(loops), c, false)
  {
  }

  /** Once the queues and the calls of other threads have drained, in every timely run, the server has
      done what was asked of it and no more: a connection is open and listed exactly if its peer has
      not closed it and nobody has called ForceClose on it; every other one is closed, off the list,
      and destroyed once. */
  lemma DrainedServerHasClosed(loops: nat, es: seq<Event>, s: State, c: Id)
    requires loops > 0 && Reaches(Init(loops), es, Some(s)) && Timely(Init(loops), es)
    requires (forall k :: 0 <= k < |s.queues| ==> s.queues[k] == []) && s.calls == multiset{} && c in s.conns
    ensures var asked, conn := exists e <- es :: AsksToClose(e, c), s.conns[c];
      && (IsOpen(conn) <==> !asked) && (conn.state == Disconnected <==> asked)
      && (c in s.connections <==> !asked)
      && conn.established == 1 && conn.destroyed == (if asked then 1 else 0)
  {
    InitSettles(loops, c);
    RunSettles(Init(loops), es, s, c, false);
    DrainedServerIsClean(loops, es, Some(s));
  }
}
