/**
 * The whole: one event loop, its connections, and any number of other threads
 * that send, queue and quit. A step is a step of the loop (LoopProtocol), of one
 * connection (Connection), or of both at once.
 */
module Reactor {
  import opened Basics
  import opened Connection
  import opened Registration
  import L = LoopProtocol

  /** The thread that runs the loop. */
  const OWNER: Tid := 0

  /** One active handler: that of the eventfd, or that of a connection with its ready flags. */
  datatype Ready = Wakeup | Event(conn: ConnId, revents: Mask)

  /** Which branch of m_handleEvent is next; the error branch changes nothing. */
  datatype Stage = AtHup | AtRead | AtWrite

  /** A connection, the sends it accepted, and its closes that no connectionDestroyed was queued for yet. */
  datatype Entry = Entry(k: Conn, accepted: seq<Msg>, closing: nat)

  datatype State = State(
    loop: L.Loop<Functor>,
    conns: map<ConnId, Entry>,
    sending: map<Tid, (ConnId, seq<byte>)>,   // other threads inside send, past the test of m_state
    body: Option<Functor>,                    // the functor being called, until it has taken effect
    active: seq<Ready>,                       // m_activeHandlers
    at: nat,                                  // the one being handled
    stage: Stage
  ) {
    /** What is still to be done by functors, the next first. */
    function Work(): seq<Functor>
      requires loop.next <= |loop.batch|
    {
      (if body.Some? then [body.value] else []) + L.Functors(loop.Queue())
    }
  }

  function Start(): State {
    State(L.Start<Functor>(), map[], map[], None, [], 0, AtHup)
  }

  /** A step of another thread. */
  datatype Foreign =
    | SendBegins(t: Tid, c: ConnId, bytes: seq<byte>)   // finds m_state to be kConnected
    | SendQueues(t: Tid)                                // and queues sendInLoop
    | Queues(t: Tid, id: nat)
    | Quits(t: Tid)
    | Wakes(t: Tid)
    | Accepts(t: Tid, c: ConnId, notify: bool)          // newConnection on the server's loop
    | Removes(t: Tid, c: ConnId)                        // removeConnectionInLoop there

  /** A step of user code on the loop thread. */
  datatype Own =
    | OwnSend(c: ConnId, bytes: seq<byte>, w: int)
    | OwnShutdown(c: ConnId)
    | OwnQueues(id: nat)
    | OwnQuits
    | OwnAccepts(c: ConnId, notify: bool)               // newConnection and removeConnectionInLoop,
    | OwnRemoves(c: ConnId)                             // when this is the server's loop

  /** A step of the loop itself. */
  datatype Turn =
    | Enters | Tests | Polls(ready: seq<Ready>) | ReadsWakeup
    | OnHup | OnRead(n: int) | OnWrite(w: int) | EndsDispatch
    | BeginsBatch | Swaps | Calls | Body(w: int) | Returns | EndsBatch
    | OwnWakes

  datatype Action = ByOther(other: Foreign) | ByUser(own: Own) | ByLoop(turn: Turn)

  // ------------------------------------------------------------ when a step can happen

  /** Another thread between two calls. */
  predicate Idle(s: State, t: Tid) {
    t != OWNER && t !in s.sending && t !in s.loop.owing
  }

  /** User code can run on the loop thread: in a handler's callback or in a functor. */
  predicate InUserCode(s: State) {
    && (s.loop.pc == L.Dispatching || s.loop.pc == L.Calling)
    && !s.loop.selfOwes && s.body.None?
  }

  /** What epoll_wait(2) may report for a mask. */
  predicate Reportable(mask: Mask, revents: Mask) {
    && (revents.input ==> mask.input) && (revents.pri ==> mask.pri)
    && (revents.out ==> mask.out) && (revents.rdhup ==> mask.rdhup)
  }

  /** The environment never reports a hang-up without input together with urgent data. */
  predicate Sane(revents: Mask) {
    !(revents.hup && !revents.input && (revents.pri || revents.rdhup))
  }

  /** Registered descriptors, each once; the eventfd only when it is readable. */
  predicate MayReport(s: State, ready: seq<Ready>) {
    && (forall i, j | 0 <= i < j < |ready| ::
          match ready[i]
          case Wakeup => ready[j] != Wakeup
          case Event(c, _) => ready[j] == Wakeup || ready[j].conn != c)
    && (forall i | 0 <= i < |ready| ::
          match ready[i]
          case Wakeup => 0 < s.loop.counter
          case Event(c, revents) =>
            && c in s.conns && s.conns[c].k.reg.kernel.Some?
            && Reportable(s.conns[c].k.reg.kernel.value, revents) && Sane(revents))
  }

  /** The loop thread is at this branch of a connection's handler. */
  predicate Handling(s: State, stage: Stage) {
    && s.loop.pc == L.Dispatching && !s.loop.selfOwes
    && s.at < |s.active| && s.active[s.at].Event? && s.active[s.at].conn in s.conns
    && s.stage == stage
  }

  /** The connection whose handler is being run. */
  function Handled(s: State): Conn
    requires s.at < |s.active| && s.active[s.at].Event? && s.active[s.at].conn in s.conns
  {
    s.conns[s.active[s.at].conn].k
  }

  predicate Enabled(s: State, a: Action) {
    match a
    case ByOther(other) => EnabledOther(s, other)
    case ByUser(own) => InUserCode(s) && EnabledOwn(s, own)
    case ByLoop(turn) => EnabledTurn(s, turn)
  }

  predicate EnabledOther(s: State, a: Foreign) {
    match a
    case SendBegins(t, c, _) => Idle(s, t) && c in s.conns && s.conns[c].k.state == Connected
    case SendQueues(t) => t in s.sending && t !in s.loop.owing && s.sending[t].0 in s.conns
    case Queues(t, _) => Idle(s, t)
    case Quits(t) => Idle(s, t)
    case Wakes(t) => t in s.loop.owing
    case Accepts(t, c, _) => Idle(s, t) && c !in s.conns
    case Removes(t, c) => Idle(s, t) && c in s.conns && 0 < s.conns[c].closing
  }

  predicate EnabledOwn(s: State, a: Own) {
    match a
    case OwnSend(c, bytes, w) => c in s.conns && -1 <= w <= |bytes|
    case OwnShutdown(c) => c in s.conns
    case OwnQueues(_) => true
    case OwnQuits => true
    case OwnAccepts(c, _) => c !in s.conns
    case OwnRemoves(c) => c in s.conns && 0 < s.conns[c].closing
  }

  predicate EnabledTurn(s: State, a: Turn) {
    match a
    case Enters => s.loop.pc == L.Outside
    case Tests => s.loop.pc == L.Testing
    case Polls(ready) => s.loop.pc == L.Polling && MayReport(s, ready)
    case ReadsWakeup =>
      s.loop.pc == L.Dispatching && !s.loop.selfOwes && s.at < |s.active| && s.active[s.at] == Wakeup
    case OnHup => Handling(s, AtHup)
    case OnRead(_) => Handling(s, AtRead)
    case OnWrite(w) => Handling(s, AtWrite) && -1 <= w <= |Handled(s).out|
    case EndsDispatch => s.loop.pc == L.Dispatching && !s.loop.selfOwes && s.at == |s.active|
    case BeginsBatch => s.loop.pc == L.Dispatched
    case Swaps => s.loop.pc == L.Swapping
    case Calls => s.loop.pc == L.Between && s.loop.next < |s.loop.batch|
    case Body(w) =>
      && s.loop.pc == L.Calling && !s.loop.selfOwes && s.body.Some?
      && (s.body.value.SendLater? ==> -1 <= w <= |s.body.value.msg.bytes|)
    case Returns => s.loop.pc == L.Calling && !s.loop.selfOwes && s.body.None?
    case EndsBatch => s.loop.pc == L.Between && s.loop.next == |s.loop.batch|
    case OwnWakes => s.loop.selfOwes
  }

  // ------------------------------------------------------------ what it does

  /** The completion callback of a connection, if its step queues it. */
  function Complete(l: L.Loop<Functor>, c: ConnId, completes: bool): L.Loop<Functor>
    requires L.UserCode(l)
  {
    if completes then L.Apply(l, L.OwnPush(WriteComplete(c))) else l
  }

  function Replace(s: State, c: ConnId, e: Entry): State {
    s.(conns := s.conns[c := e])
  }

  function Apply(s: State, a: Action): State
    requires Enabled(s, a)
  {
    match a
    case ByOther(other) => ApplyOther(s, other)
    case ByUser(own) => ApplyOwn(s, own)
    case ByLoop(turn) => ApplyTurn(s, turn)
  }

  function ApplyOther(s: State, a: Foreign): State
    requires EnabledOther(s, a)
  {
    match a
    case SendBegins(t, c, bytes) => s.(sending := s.sending[t := (c, bytes)])
    case SendQueues(t) =>
      var c, m := s.sending[t].0, Msg(t, s.sending[t].1);
      Replace(s, c, s.conns[c].(accepted := s.conns[c].accepted + [m])).(
        sending := s.sending - {t}, loop := L.Apply(s.loop, L.ForeignPush(t, SendLater(c, m))))
    case Queues(t, id) => s.(loop := L.Apply(s.loop, L.ForeignPush(t, User(id))))
    case Quits(t) => s.(loop := L.Apply(s.loop, L.ForeignQuit(t)))
    case Wakes(t) => s.(loop := L.Apply(s.loop, L.ForeignWake(t)))
    case Accepts(t, c, notify) =>
      Replace(s, c, Entry(Created(notify), [], 0)).(loop := L.Apply(s.loop, L.ForeignPush(t, Established(c))))
    case Removes(t, c) =>
      Replace(s, c, s.conns[c].(closing := s.conns[c].closing - 1)).(
        loop := L.Apply(s.loop, L.ForeignPush(t, Destroyed(c))))
  }

  function ApplyOwn(s: State, a: Own): State
    requires InUserCode(s) && EnabledOwn(s, a)
  {
    match a
    case OwnSend(c, bytes, w) =>
      var e, m := s.conns[c], Msg(OWNER, bytes);
      var d := Send(e.k, m, w);
      Replace(s, c, e.(k := d.conn, accepted := if e.k.state == Connected then e.accepted + [m] else e.accepted)).(
        loop := Complete(s.loop, c, d.completes))
    case OwnShutdown(c) => Replace(s, c, s.conns[c].(k := Shutdown(s.conns[c].k)))
    case OwnQueues(id) => s.(loop := L.Apply(s.loop, L.OwnPush(User(id))))
    case OwnQuits => s.(loop := L.Apply(s.loop, L.OwnQuit))
    case OwnAccepts(c, notify) => Replace(s, c, Entry(ConnectionEstablished(Created(notify)), [], 0))
    case OwnRemoves(c) =>
      Replace(s, c, s.conns[c].(closing := s.conns[c].closing - 1)).(
        loop := L.Apply(s.loop, L.OwnPush(Destroyed(c))))
  }

  function ApplyTurn(s: State, a: Turn): State
    requires EnabledTurn(s, a)
  {
    match a
    case Enters => s.(loop := L.Apply(s.loop, L.Enter))
    case Tests => s.(loop := L.Apply(s.loop, L.Test))
    case Polls(ready) => s.(loop := L.Apply(s.loop, L.PollReturns), active := ready, at := 0, stage := AtHup)
    case ReadsWakeup => s.(loop := L.Apply(s.loop, L.DrainWakeup), at := s.at + 1)
    case OnHup => HandlerStep(s, HupBranch(Handled(s), s.active[s.at].revents)).(stage := AtRead)
    case OnRead(n) => HandlerStep(s, ReadBranch(Handled(s), s.active[s.at].revents, n)).(stage := AtWrite)
    case OnWrite(w) =>
      var d := WriteBranch(Handled(s), s.active[s.at].revents, w);
      HandlerStep(s, d.conn).(
        loop := Complete(s.loop, s.active[s.at].conn, d.completes), at := s.at + 1, stage := AtHup)
    case EndsDispatch => s.(loop := L.Apply(s.loop, L.EndDispatch))
    case BeginsBatch => s.(loop := L.Apply(s.loop, L.BeginBatch))
    case Swaps => s.(loop := L.Apply(s.loop, L.Swap))
    case Calls => s.(loop := L.Apply(s.loop, L.Call), body := Some(s.loop.batch[s.loop.next].functor))
    case Body(w) => RunBody(s.(body := None), s.body.value, w)
    case Returns => s.(loop := L.Apply(s.loop, L.Return))
    case EndsBatch => s.(loop := L.Apply(s.loop, L.EndBatch))
    case OwnWakes => s.(loop := L.Apply(s.loop, L.OwnWake))
  }

  /** A branch of the handler being run took its connection to `k`; a close is owed a connectionDestroyed. */
  function HandlerStep(s: State, k: Conn): State
    requires s.at < |s.active| && s.active[s.at].Event? && s.active[s.at].conn in s.conns
  {
    var c := s.active[s.at].conn;
    var e := s.conns[c];
    Replace(s, c, e.(k := k, closing := if k.closes > e.k.closes then e.closing + 1 else e.closing))
  }

  /** The effect of the library's own functors; a user's functor acts through the steps of user code. */
  function RunBody(s: State, f: Functor, w: int): State
    requires L.UserCode(s.loop)
    requires f.SendLater? ==> -1 <= w <= |f.msg.bytes|
  {
    if f.User? || f.WriteComplete? || f.conn !in s.conns then s
    else
      var e := s.conns[f.conn];
      match f
      case SendLater(c, m) =>
        var d := SendInLoop(e.k, m, w);
        Replace(s, c, e.(k := d.conn)).(loop := Complete(s.loop, c, d.completes))
      case Established(c) => Replace(s, c, e.(k := ConnectionEstablished(e.k)))
      case Destroyed(c) => Replace(s, c, e.(k := ConnectionDestroyed(e.k)))
  }

  ghost predicate Legal(s: State, acts: seq<Action>)
    decreases |acts|
  {
    acts == [] || (Enabled(s, acts[0]) && Legal(Apply(s, acts[0]), acts[1..]))
  }

  ghost function Run(s: State, acts: seq<Action>): State
    requires Legal(s, acts)
    decreases |acts|
  {
    if acts == [] then s else Run(Apply(s, acts[0]), acts[1..])
  }
}
