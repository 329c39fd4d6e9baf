/** The life of connections across the loops of a server (src/net/TcpServer.cc and the life-cycle
    half of src/net/TcpConnection.cc). Loop 0 is the base loop; every loop runs its functors in
    FIFO order; RunInLoop from a loop to itself runs at once. */
module TcpServerProtocol {
  import opened Options
  import opened ConnStates

  type Id = nat

  datatype Conn = Conn(
    loop: nat,
    state: ConnState,
    reading: bool,             // the channel asks for events
    established: nat,          // how often ConnectionEstablished has completed
    destroyed: nat)            // how often ConnectionDestroyed has completed

  /** ShutIt stands for ShutdownInLoop, CloseIt for ForceCloseInLoop, SendIt for SendInLoop, which
      is bound to a bare pointer. */
  datatype Functor =
    | Establish(c: Id) | Remove(c: Id) | Destroy(c: Id)
    | ShutIt(c: Id) | CloseIt(c: Id) | SendIt(c: Id)

  /** What a thread that is not the connection's loop has still to do inside Shutdown, ForceClose or
      Send: the store of kDisconnecting after the test of state_, or the posting after either. */
  datatype Call = StoreShutdown(c: Id) | PostShutdown(c: Id) | PostClose(c: Id) | PostSend(c: Id)

  datatype State = State(
    queues: seq<seq<Functor>>,
    conns: map<Id, Conn>,      // every connection ever created
    connections: set<Id>,      // connections_
    connCount: nat,
    calls: multiset<Call>)     // calls of other threads under way

  datatype Event =
    | NewConnection(loop: nat)
    | RunFunctor(loop: nat)
    | PeerCloses(c: Id)        // EOF or hang-up reported by the poller
    | Send(c: Id)              // from another thread
    | Shutdown(c: Id, here: bool)
    | ForceClose(c: Id, here: bool)
    | Proceed(call: Call)      // the next step of a call under way

  function Init(loops: nat): State {
    State(seq(loops, _ => []), map[], {}, 0, multiset{})
  }

  predicate IsOpen(conn: Conn) {
    OpenState(conn.state)
  }

  /** From ConnectionEstablished to ConnectionDestroyed the channel is registered, and hang-ups are
      reported even to a channel that asks for nothing. */
  predicate Registered(conn: Conn) {
    conn.established > 0 && conn.destroyed == 0
  }

  /** Events reach only registered channels. Send, Shutdown and ForceClose may be called in any
      state. */
  predicate Enabled(s: State, e: Event) {
    match e
    case NewConnection(l) => l < |s.queues|
    case RunFunctor(l) => l < |s.queues| && s.queues[l] != []
    case PeerCloses(c) => c in s.conns && Registered(s.conns[c])
    case Send(c) => c in s.conns
    case Shutdown(c, _) => c in s.conns
    case ForceClose(c, _) => c in s.conns
    case Proceed(call) => call in s.calls && call.c in s.conns
  }

  function Post(s: State, loop: nat, f: Functor): State
    requires loop < |s.queues|
  {
    s.(queues := s.queues[loop := s.queues[loop] + [f]])
  }

  function Established(conn: Conn): Conn {
    conn.(state := Connected, reading := true, established := conn.established + 1)
  }

  function Destroyed(conn: Conn): Conn {
    conn.(reading := false, destroyed := conn.destroyed + 1)
  }

  /** ConnectionEstablished and its assert. */
  function ConnectionEstablished(s: State, c: Id): Option<State> {
    if c !in s.conns || s.conns[c].state != Connecting then None
    else Some(s.(conns := s.conns[c := Established(s.conns[c])]))
  }

  /** ConnectionDestroyed and its assert. */
  function ConnectionDestroyed(s: State, c: Id): Option<State> {
    if c !in s.conns || s.conns[c].state != Disconnected then None
    else Some(s.(conns := s.conns[c := Destroyed(s.conns[c])]))
  }

  /** RemoveConnectionInLoop, in the base loop. */
  function RemoveConnectionInLoop(s: State, c: Id): Option<State> {
    if c !in s.conns || s.conns[c].loop >= |s.queues| then None
    else
      var s1 := s.(connections := s.connections - {c});
      if s.conns[c].loop == 0 then ConnectionDestroyed(s1, c)
      else Some(Post(s1, s.conns[c].loop, Destroy(c)))
  }

  /** HandleClose with its assert, in the connection's own loop. */
  function HandleClose(s: State, c: Id): Option<State> {
    if c !in s.conns || !IsOpen(s.conns[c]) || |s.queues| == 0 then None
    else
      var s1 := s.(conns := s.conns[c := s.conns[c].(state := Disconnected, reading := false)]);
      if s.conns[c].loop == 0 then RemoveConnectionInLoop(s1, c) else Some(Post(s1, 0, Remove(c)))
  }

  function ForceCloseInLoop(s: State, c: Id): Option<State> {
    if c in s.conns && IsOpen(s.conns[c]) then HandleClose(s, c) else Some(s)
  }

  function Run(s: State, f: Functor): Option<State> {
    match f
    case Establish(c) => ConnectionEstablished(s, c)
    case Remove(c) => RemoveConnectionInLoop(s, c)
    case Destroy(c) => ConnectionDestroyed(s, c)
    case ShutIt(_) => Some(s)
    case SendIt(_) => Some(s)
    case CloseIt(c) => ForceCloseInLoop(s, c)
  }

  /** The count makes the name unique. */
  function Create(s: State, loop: nat): State {
    var c := s.connCount + 1;
    s.(connCount := c, conns := s.conns[c := Conn(loop, Connecting, false, 0, 0)], connections := s.connections + {c})
  }

  /** The acceptor's callback, in the base loop. */
  function Accept(s: State, loop: nat): Option<State>
    requires loop < |s.queues|
  {
    var s1 := Create(s, loop);
    if loop == 0 then ConnectionEstablished(s1, s1.connCount)
    else Some(Post(s1, loop, Establish(s1.connCount)))
  }

  /** The store of kDisconnecting, whatever the state is by then. */
  function Store(s: State, c: Id): State
    requires c in s.conns
  {
    s.(conns := s.conns[c := s.conns[c].(state := Disconnecting)])
  }

  /** Shutdown: in the loop of the connection nothing comes between the test and the store;
      elsewhere the call is only begun. ShutdownInLoop leaves the life cycle alone. */
  function BeginShutdown(s: State, c: Id, here: bool): State
    requires c in s.conns
  {
    if s.conns[c].state != Connected then s
    else if here then Store(s, c)
    else s.(calls := s.calls + multiset{StoreShutdown(c)})
  }

  /** ForceClose: its guard is always true. */
  function ForceCloseNow(s: State, c: Id, here: bool): Option<State>
    requires c in s.conns
  {
    if here then ForceCloseInLoop(Store(s, c), c)
    else Some(Store(s, c).(calls := s.calls + multiset{PostClose(c)}))
  }

  function ProceedCall(s: State, call: Call): Option<State>
    requires call.c in s.conns
  {
    Advance(s.(calls := s.calls - multiset{call}), call)
  }

  function Advance(s: State, call: Call): Option<State>
    requires call.c in s.conns
  {
    var loop := s.conns[call.c].loop;
    match call
    case StoreShutdown(c) => Some(Store(s, c).(calls := s.calls + multiset{PostShutdown(c)}))
    case PostShutdown(c) => PostTo(s, loop, ShutIt(c))
    case PostClose(c) => PostTo(s, loop, CloseIt(c))
    case PostSend(c) => PostTo(s, loop, SendIt(c))
  }

  function PostTo(s: State, loop: nat, f: Functor): Option<State> {
    if loop < |s.queues| then Some(Post(s, loop, f)) else None
  }

  /** None means that an assert has failed. */
  function Apply(s: State, e: Event): Option<State>
    requires Enabled(s, e)
  {
    match e
    case NewConnection(l) => Accept(s, l)
    case RunFunctor(l) => Run(s.(queues := s.queues[l := s.queues[l][1..]]), s.queues[l][0])
    case PeerCloses(c) => HandleClose(s, c)
    case Send(c) => Some(if s.conns[c].state == Connected then s.(calls := s.calls + multiset{PostSend(c)}) else s)
    case Shutdown(c, here) => Some(BeginShutdown(s, c, here))
    case ForceClose(c, here) => ForceCloseNow(s, c, here)
    case Proceed(call) => ProceedCall(s, call)
  }

  /** A store of kDisconnecting or a closing event meets a connection that is not open: still
      connecting, or closed since the caller looked. */
  predicate Late(s: State, e: Event) {
    match e
    case PeerCloses(c) => c in s.conns && !IsOpen(s.conns[c])
    case ForceClose(c, _) => c in s.conns && !IsOpen(s.conns[c])
    case Proceed(call) => call.StoreShutdown? && call.c in s.conns && !IsOpen(s.conns[call.c])
    case _ => false
  }

  ghost predicate Reaches(s: State, es: seq<Event>, r: Option<State>)
    decreases |es|, 0
  {
    if es == [] then r == Some(s)
    else Enabled(s, es[0]) && Continues(Apply(s, es[0]), es[1..], r)
  }

  ghost predicate Continues(mid: Option<State>, es: seq<Event>, r: Option<State>)
    decreases |es|, 1
  {
    if mid.None? then r == None else Reaches(mid.value, es, r)
  }

  /** How often a functor waits in a queue. */
  function Waiting(queues: seq<seq<Functor>>, loop: nat, f: Functor): nat
    requires loop < |queues|
  {
    multiset(queues[loop])[f]
  }

  /** The stage of one connection, told by its state and by membership in connections_, fixes
      how often each of its functors waits. */
  ghost predicate ConnInv(queues: seq<seq<Functor>>, listed: bool, c: Id, conn: Conn) {
    && 0 <= conn.loop < |queues|
    && Waiting(queues, conn.loop, Establish(c)) == (if conn.state == Connecting then 1 else 0)
    && conn.established == (if conn.state == Connecting then 0 else 1)
    && Waiting(queues, 0, Remove(c)) == (if conn.state == Disconnected && listed then 1 else 0)
    && Waiting(queues, conn.loop, Destroy(c)) + conn.destroyed
         == (if conn.state == Disconnected && !listed then 1 else 0)
    && (conn.state != Disconnected ==> listed)
    && (conn.reading <==> IsOpen(conn))
  }

  /** Every waiting functor is about a known connection and waits in the right loop. */
  ghost predicate QueueInv(queues: seq<seq<Functor>>, conns: map<Id, Conn>) {
    && |queues| > 0
    && forall l, f :: 0 <= l < |queues| && f in queues[l] ==>
         f.c in conns && l == if f.Remove? then 0 else conns[f.c].loop
  }

  /** A call under way has found its connection established. */
  ghost predicate CallInv(calls: multiset<Call>, conns: map<Id, Conn>) {
    forall call <- calls :: call.c in conns && conns[call.c].state != Connecting
  }

  ghost predicate InvExcept(s: State, x: Id) {
    && (forall c :: c in s.conns <==> 1 <= c <= s.connCount)
    && s.connections <= s.conns.Keys
    && QueueInv(s.queues, s.conns) && CallInv(s.calls, s.conns)
    && forall c :: c in s.conns && c != x ==> ConnInv(s.queues, c in s.connections, c, s.conns[c])
  }

  /** Ids start at 1, so 0 excepts nothing. */
  ghost predicate Inv(s: State) {
    InvExcept(s, 0)
  }

  lemma PostCounts(queues: seq<seq<Functor>>, loop: nat, f: Functor)
    requires loop < |queues|
    ensures var q := queues[loop := queues[loop] + [f]];
      forall l: nat, g :: l < |queues| ==>
        Waiting(q, l, g) == Waiting(queues, l, g) + if l == loop && g == f then 1 else 0
  {
  }

  lemma TakeCounts(queues: seq<seq<Functor>>, loop: nat)
    requires loop < |queues| && queues[loop] != []
    ensures var q := queues[loop := queues[loop][1..]];
      forall l: nat, g :: l < |queues| ==>
        Waiting(queues, l, g) == Waiting(q, l, g) + if l == loop && g == queues[loop][0] then 1 else 0
  {
    assert queues[loop] == [queues[loop][0]] + queues[loop][1..];
  }

  lemma ConnFrame(queues: seq<seq<Functor>>, queues': seq<seq<Functor>>, listed: bool, c: Id, conn: Conn)
    requires ConnInv(queues, listed, c, conn) && |queues'| == |queues|
    requires Waiting(queues', conn.loop, Establish(c)) == Waiting(queues, conn.loop, Establish(c))
    requires Waiting(queues', conn.loop, Destroy(c)) == Waiting(queues, conn.loop, Destroy(c))
    requires Waiting(queues', 0, Remove(c)) == Waiting(queues, 0, Remove(c))
    ensures ConnInv(queues', listed, c, conn)
  {
  }

  lemma PostQueueInv(queues: seq<seq<Functor>>, conns: map<Id, Conn>, loop: nat, f: Functor)
    requires QueueInv(queues, conns) && f.c in conns
    requires loop == (if f.Remove? then 0 else conns[f.c].loop) < |queues|
    ensures QueueInv(queues[loop := queues[loop] + [f]], conns)
  {
  }

  lemma TakeQueueInv(queues: seq<seq<Functor>>, conns: map<Id, Conn>, loop: nat)
    requires QueueInv(queues, conns) && loop < |queues| && queues[loop] != []
    ensures QueueInv(queues[loop := queues[loop][1..]], conns)
  {
    var q := queues[loop := queues[loop][1..]];
    assert forall l, f :: 0 <= l < |queues| && f in q[l] ==> f in queues[l];
  }

  /** Appending a functor of c that is in its place disturbs no other connection. */
  lemma PostKeeps(s: State, loop: nat, f: Functor)
    requires InvExcept(s, f.c) && f.c in s.conns && loop == (if f.Remove? then 0 else s.conns[f.c].loop) < |s.queues|
    ensures InvExcept(Post(s, loop, f), f.c)
  {
    PostCounts(s.queues, loop, f);
    PostQueueInv(s.queues, s.conns, loop, f);
    var s' := Post(s, loop, f);
    forall c | c in s.conns && c != f.c
      ensures ConnInv(s'.queues, c in s.connections, c, s.conns[c])
    {
      ConnFrame(s.queues, s'.queues, c in s.connections, c, s.conns[c]);
    }
  }

  lemma TakeFrame(s: State, l: nat, c: Id)
    requires Inv(s) && Enabled(s, RunFunctor(l)) && c in s.conns && c != s.queues[l][0].c
    ensures ConnInv(s.queues[l := s.queues[l][1..]], c in s.connections, c, s.conns[c])
  {
    assert ConnInv(s.queues, c in s.connections, c, s.conns[c]);
    TakeCounts(s.queues, l);
    ConnFrame(s.queues, s.queues[l := s.queues[l][1..]], c in s.connections, c, s.conns[c]);
  }

  /** Taking a functor of c off a queue disturbs no other connection. */
  lemma TakeKeeps(s: State, l: nat)
    requires Inv(s) && Enabled(s, RunFunctor(l))
    ensures s.queues[l][0].c in s.conns
    ensures InvExcept(s.(queues := s.queues[l := s.queues[l][1..]]), s.queues[l][0].c)
  {
    var f := s.queues[l][0];
    assert f in s.queues[l];
    TakeQueueInv(s.queues, s.conns, l);
    forall c | c in s.conns && c != f.c
      ensures ConnInv(s.queues[l := s.queues[l][1..]], c in s.connections, c, s.conns[c])
    {
      TakeFrame(s, l, c);
    }
  }

  /** No life-cycle functor of c waits. */
  ghost predicate Quiet(s: State, c: Id) {
    && c in s.conns && 0 <= s.conns[c].loop < |s.queues|
    && Waiting(s.queues, s.conns[c].loop, Establish(c)) == 0
    && Waiting(s.queues, s.conns[c].loop, Destroy(c)) == 0
    && Waiting(s.queues, 0, Remove(c)) == 0
  }

  lemma Rejoin(s: State, c: Id)
    requires InvExcept(s, c) && c in s.conns && ConnInv(s.queues, c in s.connections, c, s.conns[c])
    ensures Inv(s)
  {
  }

  /** Posting the functor that c's new stage calls for completes the step. */
  lemma PostCompletes(s: State, c: Id, loop: nat, f: Functor)
    requires InvExcept(s, c) && Quiet(s, c) && f.c == c && (f.Establish? || f.Remove? || f.Destroy?)
    requires loop == if f.Remove? then 0 else s.conns[c].loop
    requires var conn := s.conns[c];
      && !conn.reading && conn.destroyed == 0 && !IsOpen(conn)
      && conn.established == (if conn.state == Connecting then 0 else 1)
      && (conn.state == Connecting ==> f.Establish? && c in s.connections)
      && (conn.state == Disconnected ==> if c in s.connections then f.Remove? else f.Destroy?)
    ensures loop < |s.queues| && Inv(Post(s, loop, f))
  {
    PostKeeps(s, loop, f);
    PostCounts(s.queues, loop, f);
    Rejoin(Post(s, loop, f), c);
  }

  /** A new stage of c in its old loop disturbs no other connection. */
  lemma UpdateKeeps(s: State, c: Id, conn: Conn)
    requires InvExcept(s, c) && c in s.conns && conn.loop == s.conns[c].loop && conn.state != Connecting
    ensures InvExcept(s.(conns := s.conns[c := conn]), c)
  {
  }

  lemma UpdateCompletes(s: State, c: Id, conn: Conn)
    requires InvExcept(s, c) && c in s.conns && conn.loop == s.conns[c].loop && conn.state != Connecting
    requires ConnInv(s.queues, c in s.connections, c, conn)
    ensures Inv(s.(conns := s.conns[c := conn]))
  {
    UpdateKeeps(s, c, conn);
    Rejoin(s.(conns := s.conns[c := conn]), c);
  }

  lemma EstablishKeepsInv(s: State, c: Id)
    requires InvExcept(s, c) && Quiet(s, c) && c in s.connections
    requires var conn := s.conns[c]; conn.state == Connecting && conn.established == conn.destroyed == 0
    ensures ConnectionEstablished(s, c).Some? && Inv(ConnectionEstablished(s, c).value)
  {
    UpdateCompletes(s, c, Established(s.conns[c]));
  }

  lemma DestroyKeepsInv(s: State, c: Id)
    requires InvExcept(s, c) && Quiet(s, c) && c !in s.connections
    requires var conn := s.conns[c];
      conn.state == Disconnected && !conn.reading && conn.established == 1 && conn.destroyed == 0
    ensures ConnectionDestroyed(s, c).Some? && Inv(ConnectionDestroyed(s, c).value)
  {
    UpdateCompletes(s, c, Destroyed(s.conns[c]));
  }

  lemma RemoveKeepsInv(s: State, c: Id)
    requires InvExcept(s, c) && Quiet(s, c)
    requires var conn := s.conns[c];
      conn.state == Disconnected && !conn.reading && conn.established == 1 && conn.destroyed == 0
    ensures RemoveConnectionInLoop(s, c).Some? && Inv(RemoveConnectionInLoop(s, c).value)
  {
    var s1 := s.(connections := s.connections - {c});
    if s.conns[c].loop == 0 {
      DestroyKeepsInv(s1, c);
    } else {
      PostCompletes(s1, c, s.conns[c].loop, Destroy(c));
    }
  }

  lemma CloseKeepsInv(s: State, c: Id)
    requires Inv(s) && c in s.conns && IsOpen(s.conns[c])
    ensures HandleClose(s, c).Some? && Inv(HandleClose(s, c).value)
  {
    var s1 := s.(conns := s.conns[c := s.conns[c].(state := Disconnected, reading := false)]);
    assert ConnInv(s.queues, c in s.connections, c, s.conns[c]);
    if s.conns[c].loop == 0 {
      RemoveKeepsInv(s1, c);
    } else {
      PostCompletes(s1, c, 0, Remove(c));
    }
  }

  lemma RunFunctorKeepsInv(s: State, l: nat)
    requires Inv(s) && Enabled(s, RunFunctor(l))
    ensures Apply(s, RunFunctor(l)).Some? && Inv(Apply(s, RunFunctor(l)).value)
  {
    var f := s.queues[l][0];
    assert f in s.queues[l];
    TakeKeeps(s, l);
    RunTakenKeepsInv(s, s.(queues := s.queues[l := s.queues[l][1..]]), l, f);
  }

  /** The functor that was taken finds its connection in the stage it expects. */
  lemma RunTakenKeepsInv(s: State, s1: State, l: nat, f: Functor)
    requires l < |s.queues| && s.queues[l] != [] && f == s.queues[l][0] && f.c in s.conns
    requires l == if f.Remove? then 0 else s.conns[f.c].loop
    requires ConnInv(s.queues, f.c in s.connections, f.c, s.conns[f.c])
    requires s1 == s.(queues := s.queues[l := s.queues[l][1..]]) && InvExcept(s1, f.c)
    ensures Run(s1, f).Some? && Inv(Run(s1, f).value)
  {
    TakeCounts(s.queues, l);
    assert Waiting(s.queues, l, f) > 0;
    match f
    case Establish(c) => EstablishKeepsInv(s1, c);
    case Remove(c) => RemoveKeepsInv(s1, c);
    case Destroy(c) => DestroyKeepsInv(s1, c);
    case ShutIt(c) =>
      ConnFrame(s.queues, s1.queues, c in s.connections, c, s.conns[c]);
    case SendIt(c) =>
      ConnFrame(s.queues, s1.queues, c in s.connections, c, s.conns[c]);
    case CloseIt(c) =>
      ConnFrame(s.queues, s1.queues, c in s.connections, c, s.conns[c]);
      if IsOpen(s.conns[c]) { CloseKeepsInv(s1, c); }
  }

  /** The next id is not mentioned anywhere yet. */
  lemma NewIdIsQuiet(s: State, l: nat, c: Id)
    requires Inv(s) && c !in s.conns && l < |s.queues|
    ensures Waiting(s.queues, l, Establish(c)) == Waiting(s.queues, l, Destroy(c)) == 0
    ensures Waiting(s.queues, 0, Remove(c)) == 0
  {
    assert Establish(c) !in s.queues[l] && Destroy(c) !in s.queues[l] && Remove(c) !in s.queues[0];
  }

  lemma CreateKeepsOthers(s: State, l: nat)
    requires Inv(s)
    ensures InvExcept(Create(s, l), s.connCount + 1)
  {
  }

  lemma AcceptKeepsInv(s: State, l: nat)
    requires Inv(s) && Enabled(s, NewConnection(l))
    ensures Accept(s, l).Some? && Inv(Accept(s, l).value)
  {
    var s1 := Create(s, l);
    NewIdIsQuiet(s, l, s1.connCount);
    CreateKeepsOthers(s, l);
    if l == 0 {
      EstablishKeepsInv(s1, s1.connCount);
    } else {
      PostCompletes(s1, s1.connCount, l, Establish(s1.connCount));
    }
  }

  lemma StoreKeepsInv(s: State, c: Id)
    requires Inv(s) && c in s.conns && IsOpen(s.conns[c])
    ensures Inv(Store(s, c))
  {
    assert ConnInv(s.queues, c in s.connections, c, s.conns[c]);
    UpdateCompletes(s, c, s.conns[c].(state := Disconnecting));
  }

  lemma ForceCloseKeepsInv(s: State, c: Id, here: bool)
    requires Inv(s) && c in s.conns && IsOpen(s.conns[c])
    ensures ForceCloseNow(s, c, here).Some? && Inv(ForceCloseNow(s, c, here).value)
  {
    StoreKeepsInv(s, c);
    if here {
      CloseKeepsInv(Store(s, c), c);
    }
  }

  lemma ForceCloseIsDefined(s: State, c: Id, here: bool)
    requires Inv(s) && c in s.conns
    ensures ForceCloseNow(s, c, here).Some?
  {
    assert ConnInv(s.queues, c in s.connections, c, s.conns[c]);
  }

  lemma ProceedIsDefined(s: State, call: Call)
    requires Inv(s) && call in s.calls
    ensures call.c in s.conns && ProceedCall(s, call).Some?
  {
    assert ConnInv(s.queues, call.c in s.connections, call.c, s.conns[call.c]);
  }

  lemma PostIdleFrame(s: State, c: Id, f: Functor)
    requires c in s.conns && ConnInv(s.queues, c in s.connections, c, s.conns[c])
    requires f.ShutIt? || f.CloseIt? || f.SendIt?
    ensures ConnInv(Post(s, s.conns[c].loop, f).queues, c in s.connections, c, s.conns[c])
  {
    PostCounts(s.queues, s.conns[c].loop, f);
    ConnFrame(s.queues, Post(s, s.conns[c].loop, f).queues, c in s.connections, c, s.conns[c]);
  }

  /** A functor that only mentions its connection may wait anywhere in its loop. */
  lemma PostIdleKeepsInv(s: State, f: Functor)
    requires Inv(s) && f.c in s.conns && (f.ShutIt? || f.CloseIt? || f.SendIt?)
    ensures s.conns[f.c].loop < |s.queues| && Inv(Post(s, s.conns[f.c].loop, f))
  {
    var c, loop := f.c, s.conns[f.c].loop;
    assert ConnInv(s.queues, c in s.connections, c, s.conns[c]);
    PostKeeps(s, loop, f);
    PostIdleFrame(s, c, f);
    Rejoin(Post(s, loop, f), c);
  }

  lemma CallsKeepInv(s: State, calls: multiset<Call>)
    requires Inv(s) && CallInv(calls, s.conns)
    ensures Inv(s.(calls := calls))
  {
  }

  lemma ShutdownKeepsInv(s: State, c: Id, here: bool)
    requires Inv(s) && c in s.conns
    ensures Inv(BeginShutdown(s, c, here))
  {
    if s.conns[c].state == Connected {
      StoreKeepsInv(s, c);
      CallsKeepInv(s, s.calls + multiset{StoreShutdown(c)});
    }
  }

  lemma StoredKeepsInv(s: State, c: Id)
    requires Inv(s) && c in s.conns && IsOpen(s.conns[c])
    ensures Inv(Store(s, c).(calls := s.calls + multiset{PostShutdown(c)}))
  {
    StoreKeepsInv(s, c);
    CallsKeepInv(Store(s, c), s.calls + multiset{PostShutdown(c)});
  }

  lemma AdvanceKeepsInv(s: State, call: Call)
    requires Inv(s) && call.c in s.conns && (call.StoreShutdown? ==> IsOpen(s.conns[call.c]))
    ensures Advance(s, call).Some? && Inv(Advance(s, call).value)
  {
    match call
    case StoreShutdown(c) => StoredKeepsInv(s, c);
    case PostShutdown(c) => PostToKeepsInv(s, ShutIt(c));
    case PostClose(c) => PostToKeepsInv(s, CloseIt(c));
    case PostSend(c) => PostToKeepsInv(s, SendIt(c));
  }

  lemma PostToKeepsInv(s: State, f: Functor)
    requires Inv(s) && f.c in s.conns && (f.ShutIt? || f.CloseIt? || f.SendIt?)
    ensures PostTo(s, s.conns[f.c].loop, f).Some? && Inv(PostTo(s, s.conns[f.c].loop, f).value)
  {
    PostIdleKeepsInv(s, f);
  }

  lemma ProceedKeepsInv(s: State, call: Call)
    requires Inv(s) && Enabled(s, Proceed(call)) && !Late(s, Proceed(call))
    ensures ProceedCall(s, call).Some? && Inv(ProceedCall(s, call).value)
  {
    CallsKeepInv(s, s.calls - multiset{call});
    AdvanceKeepsInv(s.(calls := s.calls - multiset{call}), call);
  }

  lemma StepIsSafe(s: State, e: Event)
    requires Inv(s) && Enabled(s, e) && !Late(s, e)
    ensures Apply(s, e).Some? && Inv(Apply(s, e).value)
  {
    match e
    case NewConnection(l) => AcceptKeepsInv(s, l);
    case RunFunctor(l) => RunFunctorKeepsInv(s, l);
    case PeerCloses(c) =>
      assert ConnInv(s.queues, c in s.connections, c, s.conns[c]);
      CloseKeepsInv(s, c);
    case Send(c) => if s.conns[c].state == Connected { CallsKeepInv(s, s.calls + multiset{PostSend(c)}); }
    case Shutdown(c, here) => ShutdownKeepsInv(s, c, here);
    case ForceClose(c, here) => ForceCloseKeepsInv(s, c, here);
    case Proceed(call) => ProceedKeepsInv(s, call);
  }

  /** Every store of kDisconnecting and every closing event of the run meets an open connection. */
  ghost predicate Timely(s: State, es: seq<Event>)
    decreases |es|
  {
    es == [] || !Enabled(s, es[0]) || (
      && !Late(s, es[0])
      && var s' := Apply(s, es[0]); s'.None? || Timely(s'.value, es[1..]))
  }

  lemma {:induction false} RunKeepsInv(s: State, es: seq<Event>, r: Option<State>)
    requires Inv(s) && Reaches(s, es, r) && Timely(s, es)
    ensures r.Some? && Inv(r.value)
    decreases |es|
  {
    if es != [] {
      StepIsSafe(s, es[0]);
      RunKeepsInv(Apply(s, es[0]).value, es[1..], r);
    }
  }

  ghost predicate LivesOnce(s: State, c: Id)
    requires c in s.conns
  {
    var conn := s.conns[c];
    && conn.loop < |s.queues|
    && (c in s.connections <==> conn.state != Disconnected || Waiting(s.queues, 0, Remove(c)) == 1)
    && (Waiting(s.queues, conn.loop, Establish(c)) == 1 <==> conn.state == Connecting)
    && conn.established == (if conn.state == Connecting then 0 else 1)
    && conn.destroyed <= 1
    && (conn.destroyed == 1 ==> conn.state == Disconnected && c !in s.connections)
    && (Waiting(s.queues, conn.loop, Destroy(c)) > 0 ==>
          conn.state == Disconnected && conn.destroyed == 0 && c !in s.connections)
  }

  /** In every timely run every assert of the life cycle holds; connections_ holds
      exactly the created connections whose removal has not run; establishing happens once and from
      kConnecting; destroying happens at most once, after the removal and in kDisconnected. */
  lemma ConnectionsLiveOnce(loops: nat, es: seq<Event>, r: Option<State>)
    requires loops > 0 && Reaches(Init(loops), es, r) && Timely(Init(loops), es)
    ensures r.Some?
    ensures forall c :: c in r.value.conns ==> LivesOnce(r.value, c)
    ensures r.value.connections <= r.value.conns.Keys
  {
    RunKeepsInv(Init(loops), es, r);
  }

  /** Once the queues have drained, connections_ is exactly the set of open connections, and
      every other connection has been established once and destroyed once. */
  lemma DrainedServerIsClean(loops: nat, es: seq<Event>, r: Option<State>)
    requires loops > 0 && Reaches(Init(loops), es, r) && Timely(Init(loops), es)
    requires r.Some? && forall l :: 0 <= l < |r.value.queues| ==> r.value.queues[l] == []
    ensures var s := r.value; forall c :: c in s.conns ==>
      && (c in s.connections <==> IsOpen(s.conns[c]))
      && s.conns[c].established == 1
      && s.conns[c].destroyed == (if IsOpen(s.conns[c]) then 0 else 1)
  {
    RunKeepsInv(Init(loops), es, r);
    var s := r.value;
    forall c | c in s.conns
      ensures (c in s.connections <==> IsOpen(s.conns[c])) && s.conns[c].established == 1
      ensures s.conns[c].destroyed == (if IsOpen(s.conns[c]) then 0 else 1)
    {
      DrainedStage(s, c);
    }
  }

  lemma DrainedStage(s: State, c: Id)
    requires Inv(s) && c in s.conns && forall l :: 0 <= l < |s.queues| ==> s.queues[l] == []
    ensures (c in s.connections <==> IsOpen(s.conns[c])) && s.conns[c].established == 1
    ensures s.conns[c].destroyed == (if IsOpen(s.conns[c]) then 0 else 1)
  {
    assert ConnInv(s.queues, c in s.connections, c, s.conns[c]);
  }

  // When a connection is freed.

  /** Some shared_ptr to the connection is left: in connections_, bound in a functor, or with a
      thread inside one of its calls. */
  ghost predicate Held(s: State, c: Id) {
    c in s.connections || Mentioned(s, c)
  }

  ghost predicate Mentioned(s: State, c: Id) {
    || (exists l, f: Functor :: 0 <= l < |s.queues| && f in s.queues[l] && f.c == c && !f.SendIt?)
    || (exists call <- s.calls :: call.c == c)
  }

  /** A connection that is closed in its own loop, by its peer or by ForceClose, is freed before the
      event handler that does so returns, exactly when its loop is the base loop and nothing else
      mentions it; in an I/O loop the functor for RemoveConnectionInLoop keeps it. */
  lemma ClosedInOwnHandler(s: State, e: Event, c: Id)
    requires Inv(s) && Enabled(s, e) && (e == PeerCloses(c) || e == ForceClose(c, true)) && IsOpen(s.conns[c])
    ensures Apply(s, e).Some?
    ensures Held(Apply(s, e).value, c) <==> s.conns[c].loop != 0 || Mentioned(s, c)
  {
    assert ConnInv(s.queues, c in s.connections, c, s.conns[c]);
    var s' := Apply(s, e).value;
    if s.conns[c].loop != 0 {
      assert Remove(c) in s'.queues[0];
    } else {
      assert s'.queues == s.queues && s'.calls == s.calls;
    }
  }

  /** The functor of a Send from another thread runs on a freed connection exactly when
      ConnectionDestroyed has run and nothing that holds the connection is left. */
  lemma SendRunsOnFreed(s: State, l: nat, c: Id)
    requires Inv(s) && l < |s.queues| && s.queues[l] != [] && s.queues[l][0] == SendIt(c)
    ensures c in s.conns
    ensures !Held(s, c) <==> s.conns[c].destroyed == 1 && !Mentioned(s, c)
  {
    assert SendIt(c) in s.queues[l];
    assert ConnInv(s.queues, c in s.connections, c, s.conns[c]);
    if !Held(s, c) {
      assert Destroy(c) !in s.queues[s.conns[c].loop];
    }
  }
}

/** The server object and the loops it posts to. */
module TcpServers {
  import opened Options
  import opened ConnStates
  import P = TcpServerProtocol

  class TcpServer {
    var queues: seq<seq<P.Functor>>
    var conns: map<P.Id, P.Conn>
    var connections: set<P.Id>
    var connCount: nat
    var calls: multiset<P.Call>

    ghost function Model(): P.State
      reads this
    {
      P.State(queues, conns, connections, connCount, calls)
    }

    ghost predicate Valid()
      reads this
    {
      P.Inv(Model())
    }

    constructor (loops: nat)
      requires loops > 0
      ensures Valid() && Model() == P.Init(loops)
    {
      queues := seq(loops, _ => []);
      conns, connections, connCount, calls := map[], {}, 0, multiset{};
    }

    method NewConnection(loop: nat)
      requires Valid() && loop < |queues|
      modifies this
      ensures Valid() && Some(Model()) == P.Apply(old(Model()), P.NewConnection(loop))
      ensures connCount !in old(conns) && connections == old(connections) + {connCount}
    {
      P.StepIsSafe(Model(), P.NewConnection(loop));
      Accept(loop);
    }

    method Accept(loop: nat)
      requires loop < |queues| && P.Accept(Model(), loop).Some?
      modifies this
      ensures Some(Model()) == P.Accept(old(Model()), loop)
      ensures connCount == old(connCount) + 1 && connections == old(connections) + {connCount}
    {
      connCount := connCount + 1;
      conns := conns[connCount := P.Conn(loop, Connecting, false, 0, 0)];
      connections := connections + {connCount};
      if loop == 0 {
        ConnectionEstablished(connCount);
      } else {
        Post(loop, P.Establish(connCount));
      }
    }

    /** A loop runs its oldest functor. */
    method RunFunctor(loop: nat)
      requires Valid() && P.Enabled(Model(), P.RunFunctor(loop))
      modifies this
      ensures Valid() && Some(Model()) == P.Apply(old(Model()), P.RunFunctor(loop))
    {
      P.StepIsSafe(Model(), P.RunFunctor(loop));
      var f := queues[loop][0];
      queues := queues[loop := queues[loop][1..]];
      Run(f);
    }

    method Run(f: P.Functor)
      requires P.Run(Model(), f).Some?
      modifies this
      ensures Some(Model()) == P.Run(old(Model()), f)
    {
      match f
      case Establish(c) => ConnectionEstablished(c);
      case Remove(c) => RemoveConnectionInLoop(c);
      case Destroy(c) => ConnectionDestroyed(c);
      case ShutIt(_) =>
      case SendIt(_) =>
      case CloseIt(c) => ForceCloseInLoop(c);
    }

    method Post(loop: nat, f: P.Functor)
      requires loop < |queues|
      modifies this`queues
      ensures Model() == P.Post(old(Model()), loop, f)
    {
      queues := queues[loop := queues[loop] + [f]];
    }

    method ConnectionEstablished(c: P.Id)
      requires P.ConnectionEstablished(Model(), c).Some?
      modifies this`conns
      ensures Some(Model()) == P.ConnectionEstablished(old(Model()), c)
    {
      assert conns[c].state == Connecting;
      conns := conns[c := conns[c].(state := Connected, reading := true, established := conns[c].established + 1)];
    }

    method ConnectionDestroyed(c: P.Id)
      requires P.ConnectionDestroyed(Model(), c).Some?
      modifies this`conns
      ensures Some(Model()) == P.ConnectionDestroyed(old(Model()), c)
    {
      assert conns[c].state == Disconnected;
      conns := conns[c := conns[c].(reading := false, destroyed := conns[c].destroyed + 1)];
    }

    method RemoveConnectionInLoop(c: P.Id)
      requires P.RemoveConnectionInLoop(Model(), c).Some?
      modifies this
      ensures Some(Model()) == P.RemoveConnectionInLoop(old(Model()), c)
    {
      connections := connections - {c};
      if conns[c].loop == 0 {
        ConnectionDestroyed(c);
      } else {
        Post(conns[c].loop, P.Destroy(c));
      }
    }

    method HandleClose(c: P.Id)
      requires P.HandleClose(Model(), c).Some?
      modifies this
      ensures Some(Model()) == P.HandleClose(old(Model()), c)
    {
      assert OpenState(conns[c].state);
      conns := conns[c := conns[c].(state := Disconnected, reading := false)];
      if conns[c].loop == 0 {
        RemoveConnectionInLoop(c);
      } else {
        Post(0, P.Remove(c));
      }
    }

    method ForceCloseInLoop(c: P.Id)
      requires P.ForceCloseInLoop(Model(), c).Some?
      modifies this
      ensures Some(Model()) == P.ForceCloseInLoop(old(Model()), c)
    {
      if c in conns && (conns[c].state == Connected || conns[c].state == Disconnecting) {
        HandleClose(c);
      }
    }

    /** state_ = kDisconnecting. */
    method Store(c: P.Id)
      requires c in conns
      modifies this`conns
      ensures Model() == P.Store(old(Model()), c)
    {
      conns := conns[c := conns[c].(state := Disconnecting)];
    }

    /** Send from another thread, up to its test of state_. */
    method Send(c: P.Id)
      requires Valid() && c in conns
      modifies this
      ensures Valid() && Some(Model()) == P.Apply(old(Model()), P.Send(c))
    {
      P.StepIsSafe(Model(), P.Send(c));
      if conns[c].state == Connected {
        calls := calls + multiset{P.PostSend(c)};
      }
    }

    /** Shutdown, up to its test of state_ if another thread calls it. */
    method Shutdown(c: P.Id, here: bool)
      requires Valid() && c in conns
      modifies this
      ensures Valid() && Some(Model()) == P.Apply(old(Model()), P.Shutdown(c, here))
    {
      P.StepIsSafe(Model(), P.Shutdown(c, here));
      if conns[c].state != Connected { return; }
      if here {
        Store(c);
      } else {
        calls := calls + multiset{P.StoreShutdown(c)};
      }
    }

    /** ForceClose in any state; the life cycle stays in order if the connection is open. */
    method ForceClose(c: P.Id, here: bool)
      requires Valid() && c in conns
      modifies this
      ensures Some(Model()) == P.Apply(old(Model()), P.ForceClose(c, here))
      ensures old(P.IsOpen(conns[c])) ==> Valid()
    {
      P.ForceCloseIsDefined(Model(), c, here);
      if P.IsOpen(conns[c]) {
        P.StepIsSafe(Model(), P.ForceClose(c, here));
      }
      Store(c);
      if here {
        ForceCloseInLoop(c);
      } else {
        calls := calls + multiset{P.PostClose(c)};
      }
    }

    /** A thread inside Shutdown or ForceClose takes its next step. */
    method Proceed(call: P.Call)
      requires Valid() && call in calls
      modifies this
      ensures Some(Model()) == P.Apply(old(Model()), P.Proceed(call))
      ensures !old(P.Late(Model(), P.Proceed(call))) ==> Valid()
    {
      P.ProceedIsDefined(Model(), call);
      if !P.Late(Model(), P.Proceed(call)) {
        P.StepIsSafe(Model(), P.Proceed(call));
      }
      Resume(call);
    }

    method Resume(call: P.Call)
      requires call.c in conns && P.ProceedCall(Model(), call).Some?
      modifies this
      ensures Some(Model()) == P.ProceedCall(old(Model()), call)
    {
      calls := calls - multiset{call};
      Advance(call);
    }

    method Advance(call: P.Call)
      requires call.c in conns && P.Advance(Model(), call).Some?
      modifies this
      ensures Some(Model()) == P.Advance(old(Model()), call)
    {
      match call
      case StoreShutdown(c) =>
        Store(c);
        calls := calls + multiset{P.PostShutdown(c)};
      case PostShutdown(c) => Post(conns[c].loop, P.ShutIt(c));
      case PostClose(c) => Post(conns[c].loop, P.CloseIt(c));
      case PostSend(c) => Post(conns[c].loop, P.SendIt(c));
    }
  }
}
