/** Reachable states that show the exceptions of the theorems to be real. */
module ReactorWitnesses {
  import opened Basics
  import opened Connection
  import opened Reactor
  import opened ReactorFinality
  import opened ReactorInvariant
  import opened ReactorSteps
  import opened ReactorTheorems
  import R = Registration
  import L = LoopProtocol

  lemma Advance(s: State, a: Action) returns (t: State)
    requires Reachable(s) && Enabled(s, a)
    ensures Reachable(t) && t == Apply(s, a)
  {
    ReachableStep(s, a);
    t := Apply(s, a);
  }

  // ------------------------------------------------------------ laps of the loop

  /** Everything but where the loop is. */
  ghost predicate SameButLoop(s: State, t: State) {
    t == s.(loop := t.loop)
  }

  predicate OfLoopAlone(turn: Turn) {
    || turn.Enters? || turn.Tests? || turn.EndsDispatch?
    || turn.BeginsBatch? || turn.Swaps? || turn.Returns? || turn.EndsBatch?
  }

  lemma LoopStep(s: State, turn: Turn) returns (t: State)
    requires Reachable(s) && EnabledTurn(s, turn) && OfLoopAlone(turn)
    ensures Reachable(t) && SameButLoop(s, t)
    ensures TurnAct(s, turn).Some? && L.Enabled(s.loop, TurnAct(s, turn).value)
    ensures t.loop == L.Apply(s.loop, TurnAct(s, turn).value)
  {
    t := Advance(s, ByLoop(turn));
  }

  /** The loop thread is at `pc`; it owes itself no wakeup and was not told to quit. */
  ghost predicate At(l: L.Loop<Functor>, pc: L.Pc) {
    l.pc == pc && !l.selfOwes && !l.quit
  }

  /** From the end of a dispatch to the batch that was queued meanwhile. */
  lemma TakesBatch(s: State) returns (t: State)
    requires Reachable(s) && At(s.loop, L.Dispatching) && s.at == |s.active|
    ensures Reachable(t) && SameButLoop(s, t) && At(t.loop, L.Between)
    ensures t.loop.batch == s.loop.pending && t.loop.pending == [] && t.loop.next == 0
    ensures t.loop.owing == s.loop.owing
  {
    var u := LoopStep(s, EndsDispatch);
    var v := LoopStep(u, BeginsBatch);
    t := LoopStep(v, Swaps);
  }

  /** From the end of a batch to the next poll. */
  lemma BatchToPoll(s: State) returns (t: State)
    requires Reachable(s) && At(s.loop, L.Between) && s.loop.next == |s.loop.batch|
    ensures Reachable(t) && SameButLoop(s, t) && At(t.loop, L.Polling)
    ensures t.loop.pending == s.loop.pending && t.loop.owing == s.loop.owing
  {
    var u := LoopStep(s, EndsBatch);
    t := LoopStep(u, Tests);
  }

  lemma CallsNext(s: State) returns (t: State)
    requires Reachable(s) && At(s.loop, L.Between) && s.loop.next < |s.loop.batch|
    ensures Reachable(t) && At(t.loop, L.Calling) && t.conns == s.conns
    ensures t.body == Some(s.loop.batch[s.loop.next].functor)
    ensures t.loop.next == s.loop.next + 1 && t.loop.batch == s.loop.batch
  {
    t := Advance(s, ByLoop(Calls));
  }

  /** No functor is queued or being called, and no thread owes a wakeup. */
  ghost predicate Bare(s: State) {
    && s.loop.pending == [] && s.loop.batch == [] && s.loop.next == 0 && s.loop.owing == {}
    && s.body.None?
  }

  lemma EntersLoop() returns (s: State)
    ensures Reachable(s) && At(s.loop, L.Testing) && Bare(s) && s.conns == map[] && s.sending == map[]
  {
    StartIsReachable();
    s := LoopStep(Start(), Enters);
  }

  lemma FirstPoll() returns (s: State)
    ensures Reachable(s) && At(s.loop, L.Polling) && Bare(s) && s.conns == map[] && s.sending == map[]
  {
    s := EntersLoop();
    s := LoopStep(s, Tests);
  }

  /** A poll with nothing to report: the loop thread is in user code, with nothing set up. */
  lemma FirstDispatch() returns (s: State)
    ensures Reachable(s) && At(s.loop, L.Dispatching) && Bare(s) && s.conns == map[] && s.sending == map[]
    ensures s.active == [] && s.at == 0
  {
    s := FirstPoll();
    s := Advance(s, ByLoop(Polls([])));
  }

  /** A connection as it is when just established. */
  function NewlyOpen(): Conn {
    ConnectionEstablished(Created(false))
  }

  /** The same with a connection. */
  lemma FirstConnection() returns (s: State)
    ensures Reachable(s) && At(s.loop, L.Dispatching) && Bare(s)
    ensures s.conns == map[0 := Entry(NewlyOpen(), [], 0)] && s.sending == map[]
    ensures s.active == [] && s.at == 0
  {
    s := FirstDispatch();
    s := Advance(s, ByUser(OwnAccepts(0, false)));
  }

  // ------------------------------------------------------------ a half-close too early

  /** Another thread is inside send, and user code runs on the loop thread. */
  lemma SendIsBegun(bytes: seq<byte>) returns (s: State)
    ensures Reachable(s) && At(s.loop, L.Dispatching) && Bare(s)
    ensures s.conns == map[0 := Entry(NewlyOpen(), [], 0)] && s.sending == map[1 := (0, bytes)]
  {
    s := FirstConnection();
    s := Advance(s, ByOther(SendBegins(1, 0, bytes)));
  }

  lemma BareHasNoWork(s: State)
    requires Bare(s)
    ensures s.Work() == []
  {
    assert |s.loop.Queue()| == 0;
  }

  /** The send has just been queued. */
  lemma SendIsQueued(bytes: seq<byte>) returns (s: State)
    ensures Reachable(s) && InUserCode(s)
    ensures 0 in s.conns && s.conns[0].accepted == [Msg(1, bytes)] && s.conns[0].k == NewlyOpen()
    ensures s.loop.next <= |s.loop.batch| && Sends(s.Work(), 0) == [Msg(1, bytes)]
  {
    var begun := SendIsBegun(bytes);
    s := Advance(begun, ByOther(SendQueues(1)));
    ReachableIsInv(begun);
    StepOnWork(begun, ByOther(SendQueues(1)));
    BareHasNoWork(begun);
    SendsSnoc([], SendLater(0, Msg(1, bytes)), 0);
  }

  /**
   * Accepted bytes can be missing from the wire when the write side is shut: a
   * send that another thread made on an open connection is still queued when
   * the loop thread shuts the connection down.
   */
  lemma FinOvertakesQueuedSend(bytes: seq<byte>) returns (s: State)
    requires bytes != []
    ensures Reachable(s) && 0 in s.conns && s.loop.next <= |s.loop.batch|
    ensures var e := s.conns[0];
            e.accepted == [Msg(1, bytes)] && e.k.fins == 1 && e.k.wire == []
    ensures Sends(s.Work(), 0) == [Msg(1, bytes)]
  {
    var queued := SendIsQueued(bytes);
    s := Advance(queued, ByUser(OwnShutdown(0)));
    assert s.Work() == queued.Work();
  }

  /** So can those of a send that another thread is still inside, and that counts as accepted nowhere yet. */
  lemma FinOvertakesBegunSend(bytes: seq<byte>) returns (s: State)
    ensures Reachable(s) && 0 in s.conns && Bare(s) && s.Work() == []
    ensures s.conns[0].k.fins == 1 && s.conns[0].accepted == []
    ensures !NeverWritesAfterFin(s, 0)
  {
    var begun := SendIsBegun(bytes);
    s := Advance(begun, ByUser(OwnShutdown(0)));
    BareHasNoWork(s);
    assert s.sending[1].0 == 0;
    HalfCloseIsFinalExactly(s, 0);
  }

  // ------------------------------------------------------------ a send too late

  function EndOfFile(): R.Mask {
    R.NONE_EVENT.(input := true)
  }

  function HangUp(): R.Mask {
    R.NONE_EVENT.(hup := true)
  }

  /** Another thread is inside send on the one open connection, and the loop thread at its poll. */
  lemma PollDuringSend(bytes: seq<byte>) returns (s: State)
    ensures Reachable(s) && At(s.loop, L.Polling)
    ensures s.loop.pending == [] && s.loop.owing == {} && s.sending == map[1 := (0, bytes)]
    ensures s.conns == map[0 := Entry(NewlyOpen(), [], 0)]
  {
    s := FirstConnection();
    s := TakesBatch(s);
    s := BatchToPoll(s);
    s := Advance(s, ByOther(SendBegins(1, 0, bytes)));
  }

  /** The poll reports something of that connection. */
  lemma Reports(s: State, revents: R.Mask) returns (t: State)
    requires Reachable(s) && At(s.loop, L.Polling)
    requires 0 in s.conns && s.conns[0].k.reg.kernel.Some?
    requires Reportable(s.conns[0].k.reg.kernel.value, revents) && Sane(revents)
    ensures Reachable(t) && At(t.loop, L.Dispatching)
    ensures t.active == [Event(0, revents)] && t.at == 0 && t.stage == AtHup
    ensures t.conns == s.conns && t.sending == s.sending
    ensures t.loop == s.loop.(pc := L.Dispatching, handling := true)
  {
    t := Advance(s, ByLoop(Polls([Event(0, revents)])));
  }

  /** One branch of the handler of that connection. */
  lemma Branches(s: State, turn: Turn, k: Conn) returns (t: State)
    requires Reachable(s) && At(s.loop, L.Dispatching) && EnabledTurn(s, turn) && (turn.OnHup? || turn.OnRead?)
    requires |s.active| == 1 && s.active[0].Event? && s.active[0].conn == 0 && s.at == 0 && 0 in s.conns
    requires k == if turn.OnHup? then HupBranch(s.conns[0].k, s.active[0].revents)
                  else ReadBranch(s.conns[0].k, s.active[0].revents, turn.n)
    ensures Reachable(t) && 0 in t.conns && t.conns[0].k == k && t.stage == (if turn.OnHup? then AtRead else AtWrite)
    ensures t.loop == s.loop && t.sending == s.sending && t.active == s.active && t.at == s.at
  {
    t := Advance(s, ByLoop(turn));
  }

  /** The connection reads an end of file while another thread is inside send. */
  lemma ClosedDuringSend(bytes: seq<byte>) returns (s: State)
    ensures Reachable(s) && At(s.loop, L.Dispatching) && s.at == 0 && s.stage == AtWrite
    ensures s.active == [Event(0, EndOfFile())] && s.loop.pending == []
    ensures s.sending == map[1 := (0, bytes)] && 1 !in s.loop.owing
    ensures 0 in s.conns && s.conns[0].k == HandleClose(NewlyOpen())
  {
    s := PollDuringSend(bytes);
    assert NewlyOpen().reg.kernel == Some(R.READ_EVENT);
    s := Reports(s, EndOfFile());
    s := Branches(s, OnHup, NewlyOpen());
    s := Branches(s, OnRead(0), HandleClose(NewlyOpen()));
  }

  /** The send is queued and its functor called. */
  lemma CalledAfterClose(bytes: seq<byte>) returns (s: State)
    ensures Reachable(s) && At(s.loop, L.Calling) && s.body == Some(SendLater(0, Msg(1, bytes)))
    ensures 0 in s.conns && s.conns[0].k == HandleClose(NewlyOpen())
    ensures s.loop.next == |s.loop.batch|
  {
    s := ClosedDuringSend(bytes);
    s := QueuesAtEnd(s, bytes);
    s := TakesBatch(s);
    s := CallsNext(s);
  }

  lemma QueuesAtEnd(s: State, bytes: seq<byte>) returns (t: State)
    requires Reachable(s) && At(s.loop, L.Dispatching) && s.at == 0 && s.stage == AtWrite
    requires s.active == [Event(0, EndOfFile())] && s.loop.pending == []
    requires s.sending == map[1 := (0, bytes)] && 1 !in s.loop.owing && 0 in s.conns
    ensures Reachable(t) && At(t.loop, L.Dispatching) && t.at == |t.active|
    ensures |t.loop.pending| == 1 && t.loop.pending[0].functor == SendLater(0, Msg(1, bytes))
    ensures 0 in t.conns && t.conns[0].k == s.conns[0].k
  {
    var u := Advance(s, ByOther(SendQueues(1)));
    assert u.conns[0].k == s.conns[0].k && |u.loop.pending| == 1;
    t := Advance(u, ByLoop(OnWrite(-1)));
  }

  /** The value that such a send leaves. */
  lemma LateSendLeaves(m: Msg)
    requires m.bytes != []
    ensures var k := SendInLoop(HandleClose(NewlyOpen()), m, -1).conn;
            && k.state == Disconnected && k.lateSend && k.closes == 1 && k.reg.kernel == Some(R.WRITE_EVENT)
            && HandleClose(k).closes == 2 && HandleClose(k).badAssert
  {
  }

  /** What ClosedOnceDestroyedOnce excepts does happen: such a send leaves a closed connection registered. */
  lemma SendComesTooLate(bytes: seq<byte>) returns (s: State)
    requires bytes != []
    ensures Reachable(s) && 0 in s.conns
    ensures var k := s.conns[0].k;
            && k.state == Disconnected && k.lateSend && k.closes == 1 && k.reg.kernel.Some?
            && k == SendInLoop(HandleClose(NewlyOpen()), Msg(1, bytes), -1).conn
    ensures At(s.loop, L.Calling) && s.body.None? && s.loop.next == |s.loop.batch|
  {
    s := CalledAfterClose(bytes);
    LateSendLeaves(Msg(1, bytes));
    s := SendBody(s, Msg(1, bytes));
  }

  lemma SendBody(s: State, m: Msg) returns (t: State)
    requires Reachable(s) && At(s.loop, L.Calling) && s.body == Some(SendLater(0, m)) && 0 in s.conns
    ensures Reachable(t) && 0 in t.conns && t.conns[0].k == SendInLoop(s.conns[0].k, m, -1).conn
    ensures At(t.loop, L.Calling) && t.body.None? && t.loop == s.loop
  {
    t := Advance(s, ByLoop(Body(-1)));
  }

  /** Then a reported hang-up closes the connection a second time, and the assert of handleClose fails. */
  lemma LateSendClosesTwice(bytes: seq<byte>) returns (s: State)
    requires bytes != []
    ensures Reachable(s) && 0 in s.conns && s.conns[0].k.closes == 2 && s.conns[0].k.badAssert
  {
    var late := SendComesTooLate(bytes);
    LateSendLeaves(Msg(1, bytes));
    var k := late.conns[0].k;
    var between := LoopStep(late, Returns);
    var polling := BatchToPoll(between);
    var dispatching := Reports(polling, HangUp());
    s := Branches(dispatching, OnHup, HandleClose(k));
  }
}
