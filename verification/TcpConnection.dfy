/** The four states of a connection. */
module ConnStates {
  datatype ConnState = Connecting | Connected | Disconnecting | Disconnected

  predicate OpenState(state: ConnState) {
    state == Connected || state == Disconnecting
  }
}

/** The byte stream of one connection (src/net/TcpConnection.cc). The results of system calls are
    part of the events: a write takes any prefix of what it is offered, or fails with one of the
    errors the code goes on after. Functors posted to the connection's loop run in order. */
module TcpConnectionProtocol {
  import opened Options
  import opened ConnStates
  import opened Sequences

  /** Retry stands for EPIPE, EINTR and EWOULDBLOCK; any other error ends the process. */
  datatype WriteResult = Wrote(n: nat) | Retry

  datatype Functor = SendLater(data: string) | ShutdownLater | CloseLater

  /** What a thread other than the loop's has still to do inside Send, Shutdown or ForceClose: the
      posting after the test or the store of state_, or the store after the test. */
  datatype Call = PostSend(data: string) | StoreShutdown | PostShutdown | PostClose

  datatype Config = Config(writeComplete: bool, highWaterMark: Option<nat>)   // which callbacks are set

  datatype State = State(
    state: ConnState,
    begun: bool,               // ConnectionEstablished has registered the channel
    reading: bool,             // the channel's interest set
    writing: bool,
    input: string,             // received and not yet consumed
    output: string,            // outputBuffer_
    wire: string,              // everything the socket has taken
    accepted: string,          // everything SendInLoop has taken responsibility for
    posted: seq<Functor>,
    calls: multiset<Call>,     // calls of other threads under way
    completions: nat,          // calls of the write-complete callback
    marks: seq<nat>,           // arguments of the high-water-mark callback
    writeShut: bool)           // shutdown(SHUT_WR) has been called

  datatype Event =
    | Establish
    | Send(data: string, here: bool, r: WriteResult)
    | RunPosted(r: WriteResult)
    | Writable(r: WriteResult)
    | Readable(incoming: Option<string>)
    | HangUp
    | Shutdown(here: bool)
    | ForceClose(here: bool)
    | Proceed(call: Call)      // the next step of a call under way

  function Init(): State {
    State(Connecting, false, false, false, "", "", "", "", [], multiset{}, 0, [], false)
  }

  predicate Takes(r: WriteResult, offered: string) {
    r.Wrote? ==> r.n <= |offered|
  }

  /** System calls keep their promises; the poller reports readability only if asked to, a hang-up
      for every registered channel. The server calls ConnectionEstablished once. */
  predicate Enabled(s: State, e: Event) {
    match e
    case Establish => !s.begun
    case Send(data, _, r) => Takes(r, data)
    case RunPosted(r) => s.posted != [] && (s.posted[0].SendLater? ==> Takes(r, s.posted[0].data))
    case Writable(r) => Takes(r, s.output)
    case Readable(_) => s.reading
    case HangUp => s.begun
    case Shutdown(_) => true
    case ForceClose(_) => true
    case Proceed(call) => call in s.calls
  }

  /** Whether the socket is tried before the output buffer, and takes something. */
  predicate WritesDirectly(s: State, r: WriteResult) {
    !s.writing && s.output == "" && r.Wrote?
  }

  function WrittenDirectly(s: State, r: WriteResult): nat {
    if WritesDirectly(s, r) then r.n else 0
  }

  /** What the socket did not take goes to the output buffer, with write interest. */
  function KeepForLater(c: Config, s: State, rest: string): State {
    var total := |s.output| + |rest|;
    s.(marks := if c.highWaterMark.Some? && total >= c.highWaterMark.value > |s.output|
                then s.marks + [total] else s.marks,
       output := s.output + rest,
       writing := true)
  }

  function SendInLoop(c: Config, s: State, data: string, r: WriteResult): State
    requires Takes(r, data)
  {
    if s.state != Connected then s
    else
      var written := WrittenDirectly(s, r);
      var s1 := s.(accepted := s.accepted + data, wire := s.wire + data[..written]);
      if WritesDirectly(s, r) && written == |data| && c.writeComplete then
        s1.(completions := s.completions + 1)
      else KeepForLater(c, s1, data[written..])
  }

  function ShutdownInLoop(s: State): State {
    if s.state == Connected && !s.writing then s.(writeShut := true) else s
  }

  function HandleWrite(c: Config, s: State, r: WriteResult): State
    requires Takes(r, s.output)
  {
    if !s.writing || r.Retry? || r.n == 0 then s
    else
      var s1 := s.(wire := s.wire + s.output[..r.n], output := s.output[r.n..]);
      if s1.output != "" then s1 else StopWriting(c, s1)
  }

  /** The output buffer has run empty. */
  function StopWriting(c: Config, s: State): State {
    var s1 := s.(writing := false,
                 completions := if c.writeComplete then s.completions + 1 else s.completions);
    if s1.state == Disconnecting then ShutdownInLoop(s1) else s1
  }

  /** None for the failed assert. */
  function ConnectionEstablished(s: State): Option<State> {
    if s.state != Connecting then None
    else Some(s.(begun := true, reading := true, state := Connected))
  }

  /** None for the failed assert. */
  function HandleClose(s: State): Option<State> {
    if !OpenState(s.state) then None
    else Some(s.(reading := false, writing := false, state := Disconnected))
  }

  function HandleRead(s: State, incoming: Option<string>): Option<State> {
    if incoming.None? then Some(s)
    else if incoming.value == "" then HandleClose(s)
    else Some(s.(input := s.input + incoming.value))
  }

  function ForceCloseInLoop(s: State): Option<State> {
    if OpenState(s.state) then HandleClose(s) else Some(s)
  }

  function Post(s: State, f: Functor): State {
    s.(posted := s.posted + [f])
  }

  function Begin(s: State, call: Call): State {
    s.(calls := s.calls + multiset{call})
  }

  function ForceCloseNow(s: State, here: bool): Option<State> {
    var s1 := s.(state := Disconnecting);
    if here then ForceCloseInLoop(s1) else Some(Begin(s1, PostClose))
  }

  function ProceedCall(s: State, call: Call): State {
    Advance(s.(calls := s.calls - multiset{call}), call)
  }

  function Advance(s: State, call: Call): State {
    match call
    case PostSend(data) => Post(s, SendLater(data))
    case StoreShutdown => Begin(s.(state := Disconnecting), PostShutdown)
    case PostShutdown => Post(s, ShutdownLater)
    case PostClose => Post(s, CloseLater)
  }

  function Apply(c: Config, s: State, e: Event): Option<State>
    requires Enabled(s, e)
  {
    match e
    case Establish => ConnectionEstablished(s)
    case Send(data, here, r) =>
      Some(if s.state != Connected then s
           else if here then SendInLoop(c, s, data, r) else Begin(s, PostSend(data)))
    case RunPosted(r) => (
      var s1 := s.(posted := s.posted[1..]);
      match s.posted[0]
      case SendLater(data) => Some(SendInLoop(c, s1, data, r))
      case ShutdownLater => Some(ShutdownInLoop(s1))
      case CloseLater => ForceCloseInLoop(s1))
    case Writable(r) => Some(HandleWrite(c, s, r))
    case Readable(incoming) => HandleRead(s, incoming)
    case HangUp => HandleClose(s)
    case Shutdown(here) =>
      Some(if s.state != Connected then s
           else if here then ShutdownInLoop(s.(state := Disconnecting)) else Begin(s, StoreShutdown))
    case ForceClose(here) => ForceCloseNow(s, here)
    case Proceed(call) => Some(ProceedCall(s, call))
  }

  ghost predicate Reaches(c: Config, s: State, es: seq<Event>, r: Option<State>)
    decreases |es|, 0
  {
    if es == [] then r == Some(s)
    else Enabled(s, es[0]) && Continues(c, Apply(c, s, es[0]), es[1..], r)
  }

  ghost predicate Continues(c: Config, mid: Option<State>, es: seq<Event>, r: Option<State>)
    decreases |es|, 1
  {
    if mid.None? then r == None else Reaches(c, mid.value, es, r)
  }

  /** ConnectionEstablished finds the connection no longer connecting, or a hang-up finds it not
      open. */
  predicate Misses(s: State, e: Event) {
    (e.Establish? && s.state != Connecting) || (e.HangUp? && !OpenState(s.state))
  }

  /** While the connection is not closed, a non-empty output buffer is waited for. */
  predicate Interested(s: State) {
    s.state != Disconnected && s.output != "" ==> s.writing
  }

  /** What every step keeps. */
  ghost predicate Sound(s: State) {
    && s.wire + s.output == s.accepted
    && (s.state == Disconnected ==> !s.writing)
    && (s.state == Connecting ==> s.posted == [] && s.calls == multiset{} && !s.writing && s.accepted == "")
    && (s.reading ==> OpenState(s.state))
    && (if s.begun then s.state != Connecting else s.state != Connected)
    && (ShutdownLater in s.posted || PostShutdown in s.calls ==> s.state != Connected)
    && !s.writeShut
  }

  ghost predicate Inv(s: State) {
    Sound(s) && Interested(s)
  }

  /** kDisconnecting is stored over kDisconnected while output is left over. */
  predicate LateStore(s: State, e: Event) {
    s.state == Disconnected && s.output != "" && (e == Proceed(StoreShutdown) || e == ForceClose(false))
  }

  lemma SendKeepsSound(c: Config, s: State, data: string, r: WriteResult)
    requires Sound(s) && Takes(r, data)
    ensures Sound(SendInLoop(c, s, data, r))
    ensures Interested(s) ==> Interested(SendInLoop(c, s, data, r))
  {
    if s.state == Connected {
      var written := WrittenDirectly(s, r);
      var sent, rest := data[..written], data[written..];
      assert data == sent + rest;
      if s.output == "" {
        Regroup(s.wire, sent, rest);
        assert s.wire + s.output == s.wire && s.output + rest == rest;
      } else {
        Regroup(s.wire, s.output, data);
        assert s.wire + sent == s.wire && rest == data;
      }
    }
  }

  lemma PostedKeepsSound(c: Config, s: State, r: WriteResult)
    requires Sound(s) && Enabled(s, RunPosted(r))
    ensures Apply(c, s, RunPosted(r)).Some? && Sound(Apply(c, s, RunPosted(r)).value)
    ensures Interested(s) ==> Interested(Apply(c, s, RunPosted(r)).value)
  {
    var f := s.posted[0];
    assert s.posted == [f] + s.posted[1..];
    if f.SendLater? { SendKeepsSound(c, s.(posted := s.posted[1..]), f.data, r); }
  }

  lemma WriteKeepsSound(c: Config, s: State, r: WriteResult)
    requires Sound(s) && Takes(r, s.output)
    ensures Sound(HandleWrite(c, s, r))
    ensures Interested(s) ==> Interested(HandleWrite(c, s, r))
  {
    if r.Wrote? {
      var sent, rest := s.output[..r.n], s.output[r.n..];
      assert s.output == sent + rest;
      Regroup(s.wire, sent, rest);
    }
  }

  lemma ProceedKeepsSound(s: State, call: Call)
    requires Sound(s) && call in s.calls
    ensures Sound(ProceedCall(s, call))
    ensures Interested(s) && !LateStore(s, Proceed(call)) ==> Interested(ProceedCall(s, call))
  {
  }

  lemma CallIsSound(c: Config, s: State, e: Event)
    requires Sound(s) && (e.Shutdown? || e.ForceClose?)
    ensures Apply(c, s, e).Some? && Sound(Apply(c, s, e).value)
    ensures Interested(s) && !LateStore(s, e) ==> Interested(Apply(c, s, e).value)
  {
  }

  lemma ChannelIsSound(c: Config, s: State, e: Event)
    requires Sound(s) && Enabled(s, e) && (e.Establish? || e.Readable? || e.HangUp?)
    ensures Apply(c, s, e).None? <==> Misses(s, e)
    ensures !Misses(s, e) ==> Sound(Apply(c, s, e).value)
    ensures !Misses(s, e) && Interested(s) ==> Interested(Apply(c, s, e).value)
  {
  }

  /** Of all the steps only the misses fail an assert. */
  lemma StepIsSound(c: Config, s: State, e: Event)
    requires Sound(s) && Enabled(s, e)
    ensures Apply(c, s, e).None? <==> Misses(s, e)
    ensures !Misses(s, e) ==> Sound(Apply(c, s, e).value)
    ensures !Misses(s, e) && Interested(s) && !LateStore(s, e) ==> Interested(Apply(c, s, e).value)
  {
    match e
    case Send(data, here, r) => if here { SendKeepsSound(c, s, data, r); }
    case RunPosted(r) => PostedKeepsSound(c, s, r);
    case Writable(r) => WriteKeepsSound(c, s, r);
    case Proceed(call) => ProceedKeepsSound(s, call);
    case Shutdown(_) | ForceClose(_) => CallIsSound(c, s, e);
    case Establish | Readable(_) | HangUp => ChannelIsSound(c, s, e);
  }

  lemma StepIsSafe(c: Config, s: State, e: Event)
    requires Inv(s) && Enabled(s, e) && !LateStore(s, e) && !Misses(s, e)
    ensures Apply(c, s, e).Some? && Inv(Apply(c, s, e).value)
  {
    StepIsSound(c, s, e);
  }

  ghost predicate NeverMisses(c: Config, s: State, es: seq<Event>)
    decreases |es|
  {
    es == [] || !Enabled(s, es[0]) || (
      && !Misses(s, es[0])
      && var s' := Apply(c, s, es[0]); s'.None? || NeverMisses(c, s'.value, es[1..]))
  }

  lemma {:induction false} RunIsSound(c: Config, s: State, es: seq<Event>, r: Option<State>)
    requires Sound(s) && Reaches(c, s, es, r)
    ensures r.Some? <==> NeverMisses(c, s, es)
    ensures r.Some? ==> Sound(r.value)
    decreases |es|
  {
    if es != [] {
      StepIsSound(c, s, es[0]);
      if !Misses(s, es[0]) {
        RunIsSound(c, Apply(c, s, es[0]).value, es[1..], r);
      }
    }
  }

  // The same connection as its callers see it: no buffer, no socket, told from the events alone.

  /** `posts` is everything ever posted to the loop, `runs` how much of it has run, `accepted` what
      was sent while the connection was connected; `live` says that it is established and no close
      has been handled. */
  datatype Ledger = Ledger(
    state: ConnState, live: bool, calls: multiset<Call>, posts: seq<Functor>, runs: nat,
    accepted: string, received: string)

  const BLANK := Ledger(Connecting, false, multiset{}, [], 0, "", "")

  function Closed(l: Ledger): Ledger {
    l.(state := Disconnected, live := false)
  }

  /** Bytes are accepted where SendInLoop finds the connection connected. */
  function NoteSend(l: Ledger, data: string): Ledger {
    if l.state == Connected then l.(accepted := l.accepted + data) else l
  }

  /** The next posted functor runs. */
  function NoteRun(l: Ledger): Ledger {
    if l.runs >= |l.posts| then l
    else
      var l1 := l.(runs := l.runs + 1);
      match l.posts[l.runs]
      case SendLater(data) => NoteSend(l1, data)
      case ShutdownLater => l1
      case CloseLater => if OpenState(l.state) then Closed(l1) else l1
  }

  function NoteProceed(l: Ledger, call: Call): Ledger {
    var l1 := l.(calls := l.calls - multiset{call});
    match call
    case PostSend(data) => l1.(posts := l.posts + [SendLater(data)])
    case StoreShutdown => l1.(state := Disconnecting, calls := l1.calls + multiset{PostShutdown})
    case PostShutdown => l1.(posts := l.posts + [ShutdownLater])
    case PostClose => l1.(posts := l.posts + [CloseLater])
  }

  function Note(l: Ledger, e: Event): Ledger {
    match e
    case Establish => l.(state := Connected, live := true)
    case Send(data, here, _) =>
      if here then NoteSend(l, data)
      else if l.state == Connected then l.(calls := l.calls + multiset{PostSend(data)})
      else l
    case RunPosted(_) => NoteRun(l)
    case Writable(_) => l
    case Readable(incoming) =>
      if incoming.None? then l
      else if incoming.value == "" then Closed(l)
      else l.(received := l.received + incoming.value)
    case HangUp => Closed(l)
    case Shutdown(here) =>
      if l.state != Connected then l
      else if here then l.(state := Disconnecting)
      else l.(calls := l.calls + multiset{StoreShutdown})
    case ForceClose(here) =>
      if here then Closed(l) else l.(state := Disconnecting, calls := l.calls + multiset{PostClose})
    case Proceed(call) => NoteProceed(l, call)
  }

  function Noted(l: Ledger, es: seq<Event>): Ledger
    decreases |es|
  {
    if es == [] then l else Noted(Note(l, es[0]), es[1..])
  }

  ghost predicate Agrees(s: State, l: Ledger) {
    && s.state == l.state && s.reading == l.live && s.calls == l.calls
    && l.runs <= |l.posts| && s.posted == l.posts[l.runs..]
    && s.accepted == l.accepted && s.input == l.received
  }

  lemma RunPostedAgrees(c: Config, s: State, l: Ledger, r: WriteResult)
    requires Sound(s) && Enabled(s, RunPosted(r)) && Agrees(s, l)
    ensures Apply(c, s, RunPosted(r)).Some? && Agrees(Apply(c, s, RunPosted(r)).value, NoteRun(l))
  {
    assert l.posts[l.runs] == s.posted[0] && l.posts[l.runs + 1..] == s.posted[1..];
  }

  lemma ProceedAgrees(s: State, l: Ledger, call: Call)
    requires Agrees(s, l) && call in s.calls
    ensures Agrees(ProceedCall(s, call), NoteProceed(l, call))
  {
    if !call.StoreShutdown? {
      var f := ProceedCall(s, call).posted[|s.posted|];
      assert (l.posts + [f])[l.runs..] == l.posts[l.runs..] + [f];
    }
  }

  lemma SendAgrees(c: Config, s: State, l: Ledger, data: string, here: bool, r: WriteResult)
    requires Takes(r, data) && Agrees(s, l)
    ensures Agrees(Apply(c, s, Send(data, here, r)).value, Note(l, Send(data, here, r)))
  {
  }

  lemma ShutdownAgrees(c: Config, s: State, l: Ledger, here: bool)
    requires Agrees(s, l)
    ensures Agrees(Apply(c, s, Shutdown(here)).value, Note(l, Shutdown(here)))
  {
  }

  lemma ForceCloseAgrees(s: State, l: Ledger, here: bool)
    requires Agrees(s, l)
    ensures ForceCloseNow(s, here).Some? && Agrees(ForceCloseNow(s, here).value, Note(l, ForceClose(here)))
  {
  }

  lemma ChannelAgrees(c: Config, s: State, l: Ledger, e: Event)
    requires Enabled(s, e) && Agrees(s, l) && (e.Establish? || e.Writable? || e.Readable? || e.HangUp?)
    requires Apply(c, s, e).Some?
    ensures Agrees(Apply(c, s, e).value, Note(l, e))
  {
  }

  lemma StepAgrees(c: Config, s: State, l: Ledger, e: Event)
    requires Sound(s) && Enabled(s, e) && Agrees(s, l) && Apply(c, s, e).Some?
    ensures Agrees(Apply(c, s, e).value, Note(l, e))
  {
    match e
    case Send(data, here, r) => SendAgrees(c, s, l, data, here, r);
    case RunPosted(r) => RunPostedAgrees(c, s, l, r);
    case Proceed(call) => ProceedAgrees(s, l, call);
    case Shutdown(here) => ShutdownAgrees(c, s, l, here);
    case ForceClose(here) => ForceCloseAgrees(s, l, here);
    case Establish | Writable(_) | Readable(_) | HangUp => ChannelAgrees(c, s, l, e);
  }

  lemma {:induction false} RunAgrees(c: Config, s: State, l: Ledger, es: seq<Event>, s': State)
    requires Sound(s) && Agrees(s, l) && Reaches(c, s, es, Some(s'))
    ensures Sound(s') && Agrees(s', Noted(l, es))
    decreases |es|
  {
    if es != [] {
      StepIsSound(c, s, es[0]);
      StepAgrees(c, s, l, es[0]);
      RunAgrees(c, Apply(c, s, es[0]).value, Note(l, es[0]), es[1..], s');
    }
  }

  /** In every run the connection does what its calls say: its state, the calls under way and the
      input are those of the ledger; what other threads post runs in the order of their postings;
      and it asks for input from its establishment to its close. */
  lemma ConnectionFollowsItsCalls(c: Config, es: seq<Event>, s: State)
    requires Reaches(c, Init(), es, Some(s))
    ensures var l := Noted(BLANK, es);
      && s.state == l.state && s.reading == l.live && s.calls == l.calls && s.input == l.received
      && l.runs <= |l.posts| && s.posted == l.posts[l.runs..]
  {
    RunAgrees(c, Init(), BLANK, es, s);
  }

  /** In every run, whatever the writes take, whichever errors they report and wherever other
      threads are in their calls, the bytes on the socket followed by the output buffer are the
      bytes that were sent while the connection was connected, in order: in its loop at once, from
      another thread when the functor runs. And an assert fails exactly if ConnectionEstablished
      comes to a connection that is no longer connecting, or a hang-up to one that is not open. */
  lemma StreamIsIntact(c: Config, es: seq<Event>, r: Option<State>)
    requires Reaches(c, Init(), es, r)
    ensures r.Some? ==> r.value.wire + r.value.output == Noted(BLANK, es).accepted
    ensures r.Some? <==> NeverMisses(c, Init(), es)
  {
    RunIsSound(c, Init(), es, r);
    if r.Some? {
      RunAgrees(c, Init(), BLANK, es, r.value);
    }
  }

  // When the callbacks are called.

  /** An empty message goes straight to the socket, which reports that it has taken all of it. */
  predicate WritesNothing(s: State, e: Event) {
    && s.state == Connected && !s.writing && s.output == ""
    && match e
       case Send(data, here, r) => here && data == "" && r.Wrote?
       case RunPosted(r) => s.posted != [] && s.posted[0] == SendLater("") && r.Wrote?
       case _ => false
  }

  /** The high-water-mark callback is called exactly by the steps that bring the output buffer from
      below the mark to it or over it, with the new size; the write-complete callback exactly by
      those that leave nothing to be written after the socket has taken bytes, or has taken an empty
      message. */
  lemma CallbacksAreCalled(c: Config, s: State, e: Event)
    requires Enabled(s, e) && Apply(c, s, e).Some?
    ensures CallsBack(c, s, Apply(c, s, e).value, WritesNothing(s, e))
  {
    match e
    case Send(data, here, r) => SendEventCallsBack(c, s, data, here, r);
    case RunPosted(r) => PostedCallsBack(c, s, r);
    case Writable(r) => WriteCallsBack(c, s, r);
    case Proceed(call) => ProceedCallsBack(c, s, call);
    case _ => NobodyCallsBack(c, s, e);
  }

  lemma NobodyCallsBack(c: Config, s: State, e: Event)
    requires e.Establish? || e.Readable? || e.HangUp? || e.Shutdown? || e.ForceClose?
    requires Enabled(s, e) && Apply(c, s, e).Some?
    ensures CallsBack(c, s, Apply(c, s, e).value, false)
  {
    var s' := Apply(c, s, e).value;
    assert s'.marks == s.marks && s'.output == s.output && s'.wire == s.wire && s'.completions == s.completions;
  }

  /** The calls made in a step from s to s'; `nothing` says that it writes an empty message. */
  predicate CallsBack(c: Config, s: State, s': State, nothing: bool) {
    var mark := c.highWaterMark;
    && s'.marks == s.marks + (if mark.Some? && |s.output| < mark.value <= |s'.output| then [|s'.output|] else [])
    && s'.completions == s.completions +
         if c.writeComplete && s'.output == "" && (s'.wire != s.wire || nothing) then 1 else 0
  }

  lemma SendCallsBack(c: Config, s: State, data: string, r: WriteResult)
    requires Takes(r, data)
    ensures CallsBack(c, s, SendInLoop(c, s, data, r), WritesNothing(s, Send(data, true, r)))
  {
    var written := WrittenDirectly(s, r);
    assert |s.wire + data[..written]| == |s.wire| + written;
  }

  lemma SendEventCallsBack(c: Config, s: State, data: string, here: bool, r: WriteResult)
    requires Takes(r, data)
    ensures CallsBack(c, s, Apply(c, s, Send(data, here, r)).value, WritesNothing(s, Send(data, here, r)))
  {
    if here && s.state == Connected {
      SendCallsBack(c, s, data, r);
    } else {
      var s' := Apply(c, s, Send(data, here, r)).value;
      assert s'.marks == s.marks && s'.output == s.output && s'.wire == s.wire && s'.completions == s.completions;
    }
  }

  lemma PostedCallsBack(c: Config, s: State, r: WriteResult)
    requires Enabled(s, RunPosted(r)) && Apply(c, s, RunPosted(r)).Some?
    ensures CallsBack(c, s, Apply(c, s, RunPosted(r)).value, WritesNothing(s, RunPosted(r)))
  {
    var f, s1 := s.posted[0], s.(posted := s.posted[1..]);
    if f.SendLater? {
      SendCallsBack(c, s1, f.data, r);
    } else {
      var s' := Apply(c, s, RunPosted(r)).value;
      assert s'.marks == s.marks && s'.output == s.output && s'.wire == s.wire && s'.completions == s.completions;
    }
  }

  lemma WriteCallsBack(c: Config, s: State, r: WriteResult)
    requires Takes(r, s.output)
    ensures CallsBack(c, s, HandleWrite(c, s, r), false)
  {
    if r.Wrote? {
      assert |s.wire + s.output[..r.n]| == |s.wire| + r.n;
    }
  }

  lemma ProceedCallsBack(c: Config, s: State, call: Call)
    requires call in s.calls
    ensures CallsBack(c, s, ProceedCall(s, call), false)
  {
  }

  // What the socket is offered.

  /** The write that the event reports is one the connection makes: a message met nothing in front of
      it, or writability was waited for. */
  predicate Writes(s: State, e: Event) {
    match e
    case Send(_, here, _) => here && s.state == Connected && !s.writing && s.output == ""
    case RunPosted(_) =>
      s.posted != [] && s.posted[0].SendLater? && s.state == Connected && !s.writing && s.output == ""
    case Writable(_) => s.writing
    case _ => false
  }

  /** How much of it the socket has taken. */
  function TakenBy(s: State, e: Event): nat {
    match e
    case Send(_, _, r) => if Writes(s, e) && r.Wrote? then r.n else 0
    case RunPosted(r) => if Writes(s, e) && r.Wrote? then r.n else 0
    case Writable(r) => if Writes(s, e) && r.Wrote? then r.n else 0
    case _ => 0
  }

  /** From s to s' the wire grows by n bytes, and write interest ends only with the output or by a
      close. */
  predicate Grows(s: State, s': State, n: nat) {
    && s.wire <= s'.wire && |s'.wire| == |s.wire| + n
    && (s.writing && !s'.writing ==> s'.state == Disconnected || (n > 0 && s'.output == ""))
  }

  /** The connection writes whenever it can, and the wire grows by exactly what the socket reports to
      have taken; a report that empties the output buffer ends the interest, and nothing else does
      but a close. */
  lemma WireGrowsAsReported(c: Config, s: State, e: Event)
    requires Enabled(s, e) && Apply(c, s, e).Some?
    ensures var s' := Apply(c, s, e).value;
      Grows(s, s', TakenBy(s, e)) && (e.Writable? && TakenBy(s, e) > 0 && s'.output == "" ==> !s'.writing)
  {
    match e
    case Send(data, here, r) => SendTakes(c, s, data, r);
    case RunPosted(r) => PostedTakes(c, s, r);
    case Writable(r) => WritableTakes(c, s, r);
    case Proceed(call) => ProceedTakes(s, call);
    case Establish | Readable(_) | HangUp | Shutdown(_) | ForceClose(_) => NothingIsTaken(c, s, e);
  }

  lemma SendTakes(c: Config, s: State, data: string, r: WriteResult)
    requires Takes(r, data)
    ensures Grows(s, SendInLoop(c, s, data, r), TakenBy(s, Send(data, true, r)))
  {
  }

  lemma PostedTakes(c: Config, s: State, r: WriteResult)
    requires Enabled(s, RunPosted(r)) && Apply(c, s, RunPosted(r)).Some?
    ensures Grows(s, Apply(c, s, RunPosted(r)).value, TakenBy(s, RunPosted(r)))
  {
    var f, s1 := s.posted[0], s.(posted := s.posted[1..]);
    if f.SendLater? {
      SendTakes(c, s1, f.data, r);
    }
  }

  lemma WritableTakes(c: Config, s: State, r: WriteResult)
    requires Takes(r, s.output)
    ensures var s', n := HandleWrite(c, s, r), TakenBy(s, Writable(r));
      Grows(s, s', n) && (n > 0 && s'.output == "" ==> !s'.writing)
  {
  }

  lemma ProceedTakes(s: State, call: Call)
    requires call in s.calls
    ensures Grows(s, ProceedCall(s, call), 0)
  {
  }

  lemma NothingIsTaken(c: Config, s: State, e: Event)
    requires e.Establish? || e.Readable? || e.HangUp? || e.Shutdown? || e.ForceClose?
    requires Enabled(s, e) && Apply(c, s, e).Some?
    ensures Grows(s, Apply(c, s, e).value, 0)
  {
  }

  // What becomes of a forced close.

  /** No store of Shutdown by another thread comes after the close. */
  ghost predicate ShutdownsInTime(c: Config, s: State, es: seq<Event>)
    decreases |es|
  {
    es == [] || !Enabled(s, es[0]) || (
      && !(es[0] == Proceed(StoreShutdown) && s.state == Disconnected)
      && var s' := Apply(c, s, es[0]); s'.None? || ShutdownsInTime(c, s'.value, es[1..]))
  }

  /** The connection is closed, or the close is still on its way. */
  predicate Closing(s: State) {
    s.state == Disconnected || PostClose in s.calls || CloseLater in s.posted
  }

  lemma ClosingStep(c: Config, s: State, e: Event)
    requires Sound(s) && Enabled(s, e) && Apply(c, s, e).Some?
    requires s.state != Connecting || e.ForceClose?
    requires Closing(s) || e.ForceClose?
    requires !(e == Proceed(StoreShutdown) && s.state == Disconnected)
    ensures Closing(Apply(c, s, e).value) && Apply(c, s, e).value.state != Connecting
  {
    match e
    case RunPosted(r) => RunPostedIsClosing(c, s, r);
    case Proceed(call) => ProceedIsClosing(s, call);
    case Send(_, _, _) | Shutdown(_) | ForceClose(_) => CallIsClosing(c, s, e);
    case Establish | Writable(_) | Readable(_) | HangUp =>
  }

  lemma CallIsClosing(c: Config, s: State, e: Event)
    requires Enabled(s, e) && (e.Send? || e.Shutdown? || e.ForceClose?) && Apply(c, s, e).Some?
    requires (s.state != Connecting && Closing(s)) || e.ForceClose?
    ensures Closing(Apply(c, s, e).value) && Apply(c, s, e).value.state != Connecting
  {
  }

  lemma RunPostedIsClosing(c: Config, s: State, r: WriteResult)
    requires Enabled(s, RunPosted(r)) && Apply(c, s, RunPosted(r)).Some? && s.state != Connecting && Closing(s)
    ensures var s' := Apply(c, s, RunPosted(r)).value; Closing(s') && s'.state != Connecting
  {
    assert s.posted == [s.posted[0]] + s.posted[1..];
  }

  lemma ProceedIsClosing(s: State, call: Call)
    requires call in s.calls && s.state != Connecting && Closing(s)
    requires !(call.StoreShutdown? && s.state == Disconnected)
    ensures Closing(ProceedCall(s, call)) && ProceedCall(s, call).state != Connecting
  {
    var s' := ProceedCall(s, call);
    if CloseLater in s.posted {
      assert s.posted <= s'.posted;
    }
    if call.PostClose? {
      assert s'.posted[|s.posted|] == CloseLater;
    }
  }

  lemma {:induction false} StaysClosing(c: Config, s: State, es: seq<Event>, s': State)
    requires Sound(s) && s.state != Connecting && Closing(s)
    requires Reaches(c, s, es, Some(s')) && ShutdownsInTime(c, s, es)
    ensures Closing(s')
    decreases |es|
  {
    if es != [] {
      StepIsSound(c, s, es[0]);
      ClosingStep(c, s, es[0]);
      StaysClosing(c, Apply(c, s, es[0]).value, es[1..], s');
    }
  }

  lemma {:induction false} ForcedIsClosing(c: Config, s: State, es: seq<Event>, s': State)
    requires Sound(s) && Reaches(c, s, es, Some(s')) && ShutdownsInTime(c, s, es) && exists e <- es :: e.ForceClose?
    ensures Closing(s')
    decreases |es|
  {
    StepIsSound(c, s, es[0]);
    if es[0].ForceClose? {
      ClosingStep(c, s, es[0]);
      StaysClosing(c, Apply(c, s, es[0]).value, es[1..], s');
    } else {
      assert es == [es[0]] + es[1..];
      ForcedIsClosing(c, Apply(c, s, es[0]).value, es[1..], s');
    }
  }

  /** Once the calls under way and the posted functors of a run have drained, a connection on which
      ForceClose was called, by any thread, is closed, if no store of Shutdown came after the close. */
  lemma ForcedConnectionsClose(c: Config, es: seq<Event>, s: State)
    requires Reaches(c, Init(), es, Some(s)) && ShutdownsInTime(c, Init(), es)
    requires (exists e <- es :: e.ForceClose?) && s.calls == multiset{} && s.posted == []
    ensures s.state == Disconnected && !s.reading && !s.writing
  {
    ForcedIsClosing(c, Init(), es, s);
    RunIsSound(c, Init(), es, Some(s));
  }

  lemma WaitingStep(c: Config, s: State, e: Event)
    requires Sound(s) && !s.begun && Enabled(s, e) && e != Establish && Apply(c, s, e).Some?
    ensures var s' := Apply(c, s, e).value;
      !s'.begun && (s'.state == Connecting <==> s.state == Connecting && !e.ForceClose?)
  {
  }

  lemma NobodyForcesClose(es: seq<Event>)
    requires es != []
    ensures (forall e <- es :: !e.ForceClose?) <==> !es[0].ForceClose? && forall e <- es[1..] :: !e.ForceClose?
  {
    assert es == [es[0]] + es[1..];
  }

  /** Before it is established, a connection is connecting for as long as nobody calls ForceClose. */
  lemma {:induction false} WaitingToBegin(c: Config, s: State, es: seq<Event>, s': State)
    requires Sound(s) && !s.begun && Reaches(c, s, es, Some(s')) && Establish !in es
    ensures !s'.begun && (s'.state == Connecting <==> s.state == Connecting && forall e <- es :: !e.ForceClose?)
    decreases |es|
  {
    if es != [] {
      StepIsSound(c, s, es[0]);
      WaitingStep(c, s, es[0]);
      WaitingToBegin(c, Apply(c, s, es[0]).value, es[1..], s');
      NobodyForcesClose(es);
    }
  }

  /** The assert of ConnectionEstablished fails exactly if ForceClose was called before: it stores
      kDisconnecting in any state. */
  lemma EarlyForceCloseFails(c: Config, es: seq<Event>, s: State)
    requires Reaches(c, Init(), es, Some(s)) && Establish !in es
    ensures Enabled(s, Establish)
    ensures Apply(c, s, Establish).None? <==> exists e <- es :: e.ForceClose?
  {
    WaitingToBegin(c, Init(), es, s);
  }

  /** The half-close never happens, in any run: ShutdownInLoop tests for a state that both of its
      callers have already left. */
  lemma WriteSideIsNeverShut(c: Config, es: seq<Event>, s: State)
    requires Reaches(c, Init(), es, Some(s))
    ensures !s.writeShut
  {
    RunIsSound(c, Init(), es, Some(s));
  }

  // Who waits for the output buffer.

  ghost predicate AlwaysInterested(c: Config, s: State, es: seq<Event>)
    decreases |es|
  {
    Interested(s) && (es == [] || !Enabled(s, es[0]) || (
      var s' := Apply(c, s, es[0]); s'.None? || AlwaysInterested(c, s'.value, es[1..])))
  }

  /** No store of kDisconnecting in the run meets a closed connection with output left over. */
  ghost predicate Timely(c: Config, s: State, es: seq<Event>)
    decreases |es|
  {
    es == [] || !Enabled(s, es[0]) || (
      && !LateStore(s, es[0])
      && var s' := Apply(c, s, es[0]); s'.None? || Timely(c, s'.value, es[1..]))
  }

  /** While the connection is not closed, a non-empty output buffer is waited for, all through a
      run, exactly when no store of kDisconnecting comes after a close that left output over. */
  lemma {:induction false} InterestNeedsTimelyStores(c: Config, s: State, es: seq<Event>)
    requires Inv(s)
    ensures AlwaysInterested(c, s, es) <==> Timely(c, s, es)
    decreases |es|
  {
    if es != [] && Enabled(s, es[0]) {
      StepIsSound(c, s, es[0]);
      if !LateStore(s, es[0]) && !Misses(s, es[0]) {
        InterestNeedsTimelyStores(c, Apply(c, s, es[0]).value, es[1..]);
      }
    }
  }

  predicate InLoop(e: Event) {
    e != Shutdown(false) && e != ForceClose(false)
  }

  lemma InLoopStep(c: Config, s: State, e: Event)
    requires StoreShutdown !in s.calls && Enabled(s, e) && InLoop(e)
    ensures !LateStore(s, e) && (Apply(c, s, e).Some? ==> StoreShutdown !in Apply(c, s, e).value.calls)
  {
  }

  /** In particular it is if Shutdown and ForceClose are called only in the connection's loop. */
  lemma {:induction false} InLoopStoresAreTimely(c: Config, s: State, es: seq<Event>)
    requires StoreShutdown !in s.calls && forall e <- es :: InLoop(e)
    ensures Timely(c, s, es)
    decreases |es|
  {
    if es != [] && Enabled(s, es[0]) {
      InLoopStep(c, s, es[0]);
      if Apply(c, s, es[0]).Some? {
        InLoopStoresAreTimely(c, Apply(c, s, es[0]).value, es[1..]);
      }
    }
  }

  lemma Then(c: Config, s: State, e: Event, es: seq<Event>, s': State)
    requires Enabled(s, e) && Apply(c, s, e).Some? && Reaches(c, Apply(c, s, e).value, es, Some(s'))
    ensures Reaches(c, s, [e] + es, Some(s'))
  {
    assert ([e] + es)[1..] == es;
  }

  /** A run that loses it: the socket takes half of a message, another thread finds the connection
      connected, the peer hangs up, and the thread stores kDisconnecting. */
  lemma LateStoreLosesInterest(c: Config) returns (s: State)
    ensures Reaches(c, Init(), [Establish] + ([Send("ab", true, Wrote(1))] + ([Shutdown(false)]
                               + ([HangUp] + ([Proceed(StoreShutdown)] + [])))), Some(s))
    ensures s.state == Disconnecting && s.output == "b" && !s.writing
  {
    var s1 := Apply(c, Init(), Establish).value;
    var s2 := Apply(c, s1, Send("ab", true, Wrote(1))).value;
    assert "ab"[1..] == "b";
    var s3 := Apply(c, s2, Shutdown(false)).value;
    var s4 := Apply(c, s3, HangUp).value;
    s := Apply(c, s4, Proceed(StoreShutdown)).value;
    Then(c, s4, Proceed(StoreShutdown), [], s);
    Then(c, s3, HangUp, [Proceed(StoreShutdown)] + [], s);
    Then(c, s2, Shutdown(false), [HangUp] + ([Proceed(StoreShutdown)] + []), s);
    Then(c, s1, Send("ab", true, Wrote(1)), [Shutdown(false)] + ([HangUp] + ([Proceed(StoreShutdown)] + [])), s);
    Then(c, Init(), Establish,
         [Send("ab", true, Wrote(1))] + ([Shutdown(false)] + ([HangUp] + ([Proceed(StoreShutdown)] + []))), s);
  }

  // Write interest with nothing to write.

  predicate NoEmptySend(e: Event) {
    e.Send? ==> e.data != ""
  }

  /** The connection asks for writability, and no report of it changes anything. */
  ghost predicate Spins(c: Config, s: State) {
    s.writing && forall r :: Takes(r, s.output) ==> HandleWrite(c, s, r) == s
  }

  lemma SpinsWithoutOutput(c: Config, s: State)
    ensures Spins(c, s) <==> s.writing && s.output == ""
  {
    if s.writing && s.output != "" {
      assert Takes(Wrote(1), s.output);
      assert |HandleWrite(c, s, Wrote(1)).output| < |s.output|;
    }
  }

  /** The run comes to spin; `empties` allows it to send empty messages. */
  ghost predicate Busy(c: Config, empties: bool, es: seq<Event>) {
    (empties || forall e <- es :: NoEmptySend(e)) && exists s :: Reaches(c, Init(), es, Some(s)) && Spins(c, s)
  }

  ghost predicate Calm(s: State) {
    && (s.writing ==> s.output != "")
    && (forall f <- s.posted :: f.SendLater? ==> f.data != "")
    && (forall call <- s.calls :: call.PostSend? ==> call.data != "")
  }

  lemma SendKeepsCalm(c: Config, s: State, data: string, r: WriteResult)
    requires c.writeComplete && Calm(s) && Takes(r, data) && data != ""
    ensures Calm(SendInLoop(c, s, data, r))
  {
    if s.state == Connected && WrittenDirectly(s, r) < |data| {
      assert data[WrittenDirectly(s, r)..] != "";
    }
  }

  lemma PostedKeepsCalm(c: Config, s: State, r: WriteResult)
    requires c.writeComplete && Calm(s) && Enabled(s, RunPosted(r)) && Apply(c, s, RunPosted(r)).Some?
    ensures Calm(Apply(c, s, RunPosted(r)).value)
  {
    var f, s1 := s.posted[0], s.(posted := s.posted[1..]);
    assert f in s.posted && forall g <- s1.posted :: g in s.posted;
    if f.SendLater? { SendKeepsCalm(c, s1, f.data, r); }
  }

  lemma ProceedKeepsCalm(s: State, call: Call)
    requires Calm(s) && call in s.calls
    ensures Calm(ProceedCall(s, call))
  {
  }

  lemma BeginKeepsCalm(s: State, call: Call)
    requires Calm(s) && (call.PostSend? ==> call.data != "")
    ensures Calm(Begin(s, call))
  {
  }

  lemma ChannelKeepsCalm(c: Config, s: State, e: Event)
    requires Calm(s) && Enabled(s, e) && (e.Establish? || e.Writable? || e.Readable? || e.HangUp?)
    ensures Apply(c, s, e).Some? ==> Calm(Apply(c, s, e).value)
  {
    if e.Writable? && s.writing {
      assert e.r.Wrote? && e.r.n < |s.output| ==> s.output[e.r.n..] != "";
    }
  }

  lemma CallKeepsCalm(c: Config, s: State, e: Event)
    requires Calm(s) && Enabled(s, e) && (e.Shutdown? || e.ForceClose?)
    ensures Apply(c, s, e).Some? ==> Calm(Apply(c, s, e).value)
  {
    if e.Shutdown? {
      BeginKeepsCalm(s, StoreShutdown);
    } else {
      BeginKeepsCalm(s.(state := Disconnecting), PostClose);
    }
  }

  lemma StepKeepsCalm(c: Config, s: State, e: Event)
    requires c.writeComplete && Calm(s) && Enabled(s, e) && NoEmptySend(e) && Apply(c, s, e).Some?
    ensures Calm(Apply(c, s, e).value)
  {
    match e
    case Send(data, here, r) => if here { SendKeepsCalm(c, s, data, r); } else { BeginKeepsCalm(s, PostSend(data)); }
    case RunPosted(r) => PostedKeepsCalm(c, s, r);
    case Proceed(call) => ProceedKeepsCalm(s, call);
    case Shutdown(_) | ForceClose(_) => CallKeepsCalm(c, s, e);
    case _ => ChannelKeepsCalm(c, s, e);
  }

  lemma {:induction false} RunKeepsCalm(c: Config, s: State, es: seq<Event>, s': State)
    requires c.writeComplete && Calm(s) && Reaches(c, s, es, Some(s')) && forall e <- es :: NoEmptySend(e)
    ensures Calm(s')
    decreases |es|
  {
    if es != [] {
      StepKeepsCalm(c, s, es[0]);
      RunKeepsCalm(c, Apply(c, s, es[0]).value, es[1..], s');
    }
  }

  lemma BusyRun(c: Config, e: Event)
    requires e == (if c.writeComplete then Send("", true, Retry) else Send("x", true, Wrote(1)))
    ensures exists s :: Reaches(c, Init(), [Establish] + ([e] + []), Some(s)) && Spins(c, s)
  {
    var s1 := Apply(c, Init(), Establish).value;
    var s2 := Apply(c, s1, e).value;
    Then(c, s1, e, [], s2);
    Then(c, Init(), Establish, [e] + [], s2);
    SpinsWithoutOutput(c, s2);
  }

  /** A connection can come to ask for writability that it has no use for, report after report,
      exactly when no write-complete callback is set, or when empty messages are sent: the early
      return of SendInLoop tests the callback together with the byte count, and a write that
      reports an error does not get there. */
  lemma IdleWriteInterest(c: Config, empties: bool)
    ensures (exists es :: Busy(c, empties, es)) <==> !c.writeComplete || empties
  {
    if c.writeComplete && !empties {
      forall es, s | (forall e <- es :: NoEmptySend(e)) && Reaches(c, Init(), es, Some(s))
        ensures !Spins(c, s)
      {
        RunKeepsCalm(c, Init(), es, s);
        SpinsWithoutOutput(c, s);
      }
    } else {
      var e := if c.writeComplete then Send("", true, Retry) else Send("x", true, Wrote(1));
      BusyRun(c, e);
      assert Busy(c, empties, [Establish] + ([e] + []));
    }
  }
}

/** The connection object, with both of its byte buffers. */
module TcpConnections {
  import opened Options
  import opened ConnStates
  import opened Buffers
  import BufferShapes
  import P = TcpConnectionProtocol

  class TcpConnection {
    const config: P.Config
    const inputBuffer: Buffer
    const outputBuffer: Buffer
    var state: ConnState
    var begun: bool
    var reading: bool
    var writing: bool
    var posted: seq<P.Functor>
    var calls: multiset<P.Call>
    ghost var wire: string
    ghost var accepted: string
    ghost var completions: nat
    ghost var marks: seq<nat>
    ghost var writeShut: bool

    ghost predicate BuffersValid()
      reads this, inputBuffer, outputBuffer
    {
      && inputBuffer.Valid() && outputBuffer.Valid()
      && inputBuffer != outputBuffer && inputBuffer.buffer != outputBuffer.buffer
    }

    ghost function Model(): P.State
      requires BuffersValid()
      reads this, inputBuffer, outputBuffer, inputBuffer.buffer, outputBuffer.buffer
    {
      P.State(state, begun, reading, writing, inputBuffer.Readable(), outputBuffer.Readable(), wire, accepted,
              posted, calls, completions, marks, writeShut)
    }

    ghost predicate Valid()
      reads this, inputBuffer, outputBuffer, inputBuffer.buffer, outputBuffer.buffer
    {
      BuffersValid() && P.Sound(Model())
    }

    constructor (config: P.Config)
      ensures Valid() && Model() == P.Init() && this.config == config
      ensures fresh(inputBuffer) && fresh(outputBuffer) && fresh(inputBuffer.buffer) && fresh(outputBuffer.buffer)
    {
      this.config := config;
      inputBuffer := new Buffer(BufferShapes.INITIAL_SIZE);
      outputBuffer := new Buffer(BufferShapes.INITIAL_SIZE);
      state, begun, reading, writing, posted, calls := Connecting, false, false, false, [], multiset{};
      wire, accepted, completions, marks, writeShut := "", "", 0, [], false;
    }

    method ConnectionEstablished()
      requires Valid() && state == Connecting
      modifies this
      ensures Valid() && Some(Model()) == P.Apply(config, old(Model()), P.Establish)
    {
      begun, reading := true, true;
      state := Connected;
    }

    method SendInLoop(data: string, r: P.WriteResult)
      requires BuffersValid() && P.Takes(r, data)
      modifies this, outputBuffer, outputBuffer.buffer
      ensures BuffersValid() && Model() == P.SendInLoop(config, old(Model()), data, r)
      ensures outputBuffer.buffer == old(outputBuffer.buffer) || fresh(outputBuffer.buffer)
    {
      if state != Connected { return; }
      accepted := accepted + data;
      var written, wrote := WriteDirectly(data, r);
      if wrote && |data| - written == 0 && config.writeComplete {
        completions := completions + 1;
        return;
      }
      KeepForLater(data[written..]);
    }

    method WriteDirectly(data: string, r: P.WriteResult) returns (written: nat, wrote: bool)
      requires BuffersValid() && P.Takes(r, data)
      modifies this`wire
      ensures BuffersValid()
      ensures wrote == P.WritesDirectly(old(Model()), r) && written == P.WrittenDirectly(old(Model()), r)
      ensures Model() == old(Model()).(wire := old(wire) + data[..written])
    {
      wrote := !writing && outputBuffer.ReadableBytes() == 0 && r.Wrote?;
      written := if wrote then r.n else 0;
      wire := wire + data[..written];
    }

    method KeepForLater(rest: string)
      requires BuffersValid()
      modifies this`marks, this`writing, outputBuffer, outputBuffer.buffer
      ensures BuffersValid() && Model() == P.KeepForLater(config, old(Model()), rest)
      ensures outputBuffer.buffer == old(outputBuffer.buffer) || fresh(outputBuffer.buffer)
    {
      var oldBytes := outputBuffer.ReadableBytes();
      var mark := config.highWaterMark;
      if mark.Some? && oldBytes + |rest| >= mark.value && oldBytes < mark.value {
        marks := marks + [oldBytes + |rest|];
      }
      outputBuffer.Append(rest);
      writing := true;
    }

    method HandleWrite(r: P.WriteResult)
      requires Valid() && P.Takes(r, outputBuffer.Readable())
      modifies this, outputBuffer
      ensures Valid() && Model() == P.HandleWrite(config, old(Model()), r)
    {
      P.StepIsSound(config, Model(), P.Writable(r));
      if !writing { return; }
      if r.Wrote? && r.n > 0 {
        TakeOutput(r.n);
        if outputBuffer.ReadableBytes() == 0 {
          StopWriting();
        }
      }
    }

    /** The output buffer has run empty. */
    method StopWriting()
      requires BuffersValid()
      modifies this`writing, this`completions, this`writeShut
      ensures BuffersValid() && Model() == P.StopWriting(config, old(Model()))
    {
      writing := false;
      if config.writeComplete {
        completions := completions + 1;
      }
      if state == Disconnecting {
        ShutdownInLoop();
      }
    }

    /** The socket has taken n bytes of the output buffer. */
    method TakeOutput(n: nat)
      requires BuffersValid() && n <= outputBuffer.ReadableBytes()
      modifies this`wire, outputBuffer
      ensures BuffersValid()
      ensures var s := old(Model()); Model() == s.(wire := s.wire + s.output[..n], output := s.output[n..])
    {
      wire := wire + outputBuffer.Readable()[..n];
      outputBuffer.Retrieve(n);
    }

    method ShutdownInLoop()
      requires BuffersValid()
      modifies this`writeShut
      ensures BuffersValid() && Model() == P.ShutdownInLoop(old(Model()))
    {
      if state == Connected && !writing {
        writeShut := true;
      }
    }

    method HandleClose()
      requires BuffersValid() && OpenState(state)
      modifies this`reading, this`writing, this`state
      ensures BuffersValid() && Some(Model()) == P.HandleClose(old(Model()))
    {
      reading, writing := false, false;
      state := Disconnected;
    }

    /** HandleRead, given what readv delivers. */
    method HandleRead(incoming: Option<string>)
      requires Valid() && reading
      requires incoming.Some? ==> BufferShapes.Enabled(inputBuffer.Shape(), BufferShapes.ReadFd(|incoming.value|))
      modifies this, inputBuffer, inputBuffer.buffer
      ensures Valid() && Some(Model()) == P.Apply(config, old(Model()), P.Readable(incoming))
    {
      P.StepIsSound(config, Model(), P.Readable(incoming));
      var n := inputBuffer.ReadFd(incoming);
      if n == 0 {
        assert inputBuffer.Readable() == old(inputBuffer.Readable());
        HandleClose();
      }
    }

    /** Send, up to its test of state_ if another thread calls it. */
    method Send(data: string, here: bool, r: P.WriteResult)
      requires Valid() && P.Takes(r, data)
      modifies this, outputBuffer, outputBuffer.buffer
      ensures Valid() && Some(Model()) == P.Apply(config, old(Model()), P.Send(data, here, r))
      ensures outputBuffer.buffer == old(outputBuffer.buffer) || fresh(outputBuffer.buffer)
    {
      P.StepIsSound(config, Model(), P.Send(data, here, r));
      if state != Connected { return; }
      if here {
        SendInLoop(data, r);
      } else {
        calls := calls + multiset{P.PostSend(data)};
      }
    }

    /** Shutdown, up to its test of state_ if another thread calls it. */
    method Shutdown(here: bool)
      requires Valid()
      modifies this
      ensures Valid() && Some(Model()) == P.Apply(config, old(Model()), P.Shutdown(here))
    {
      P.StepIsSound(config, Model(), P.Shutdown(here));
      if state != Connected { return; }
      if here {
        state := Disconnecting;
        ShutdownInLoop();
      } else {
        calls := calls + multiset{P.StoreShutdown};
      }
    }

    /** ForceClose in any state, up to its store if another thread calls it. */
    method ForceClose(here: bool)
      requires Valid()
      modifies this
      ensures Valid() && Some(Model()) == P.Apply(config, old(Model()), P.ForceClose(here))
    {
      P.StepIsSound(config, Model(), P.ForceClose(here));
      state := Disconnecting;
      if here {
        HandleClose();
      } else {
        calls := calls + multiset{P.PostClose};
      }
    }

    /** A thread inside Send, Shutdown or ForceClose takes its next step. */
    method Proceed(call: P.Call)
      requires Valid() && call in calls
      modifies this
      ensures Valid() && Some(Model()) == P.Apply(config, old(Model()), P.Proceed(call))
    {
      P.StepIsSound(config, Model(), P.Proceed(call));
      calls := calls - multiset{call};
      Advance(call);
    }

    method Advance(call: P.Call)
      requires BuffersValid()
      modifies this`calls, this`posted, this`state
      ensures BuffersValid() && Model() == P.Advance(old(Model()), call)
    {
      match call
      case PostSend(data) => posted := posted + [P.SendLater(data)];
      case StoreShutdown =>
        state := Disconnecting;
        calls := calls + multiset{P.PostShutdown};
      case PostShutdown => posted := posted + [P.ShutdownLater];
      case PostClose => posted := posted + [P.CloseLater];
    }

    /** The loop runs the oldest functor posted for this connection. */
    method RunPosted(r: P.WriteResult)
      requires Valid() && P.Enabled(Model(), P.RunPosted(r))
      modifies this, outputBuffer, outputBuffer.buffer
      ensures Valid() && Some(Model()) == P.Apply(config, old(Model()), P.RunPosted(r))
    {
      P.StepIsSound(config, Model(), P.RunPosted(r));
      var f := posted[0];
      posted := posted[1..];
      match f
      case SendLater(data) => SendInLoop(data, r);
      case ShutdownLater => ShutdownInLoop();
      case CloseLater => if OpenState(state) { HandleClose(); }
    }
  }
}
