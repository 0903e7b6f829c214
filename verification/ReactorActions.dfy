/** What each call and each event does to the reactor, and that what is queued is then run. */
module ReactorActions {
  import opened Basics
  import opened Connection
  import opened Reactor
  import opened ReactorCompletions
  import opened ReactorInvariant
  import opened ReactorProgress
  import opened ReactorSteps
  import opened ReactorTheorems
  import R = Registration
  import L = LoopProtocol

  /** The functors ever queued, oldest first. */
  function Queued(s: State): (fs: seq<Functor>)
    ensures |fs| == |s.loop.pushed|
  {
    L.Functors(s.loop.pushed)
  }

  /** Everything about `c` but the new entry is as it was. */
  ghost predicate OnlyEntry(s: State, t: State, c: ConnId) {
    t.conns.Keys == s.conns.Keys + {c} && forall d | d in s.conns && d != c :: t.conns[d] == s.conns[d]
  }

  // ------------------------------------------------------------ queueInLoop and quit

  /** queueInLoop on the loop thread: the functor is queued last; a wakeup is owed if a batch is running. */
  lemma OwnQueueTakesEffect(s: State, id: nat)
    requires InUserCode(s)
    ensures var t := Apply(s, ByUser(OwnQueues(id)));
            && Queued(t) == Queued(s) + [User(id)] && t.conns == s.conns
            && t.loop.selfOwes == s.loop.calling
  {
    L.FunctorsSnoc(s.loop.pushed, L.Job(User(id), s.loop.swaps));
  }

  /** queueInLoop on another thread: the same, and that thread owes the wakeup. */
  lemma QueueTakesEffect(s: State, u: Tid, id: nat)
    requires Idle(s, u)
    ensures var t := Apply(s, ByOther(Queues(u, id)));
            && Queued(t) == Queued(s) + [User(id)] && t.conns == s.conns
            && t.loop.owing == s.loop.owing + {u}
  {
    L.FunctorsSnoc(s.loop.pushed, L.Job(User(id), s.loop.swaps));
  }

  /** quit, on either; another thread owes a wakeup, and its wakeup makes the eventfd readable. */
  lemma QuitTakesEffect(s: State, u: Tid)
    ensures InUserCode(s) ==> Apply(s, ByUser(OwnQuits)).loop.quit
    ensures Idle(s, u) ==>
              var t := Apply(s, ByOther(Quits(u)));
              t.loop.quit && t.loop.owing == s.loop.owing + {u} && Queued(t) == Queued(s)
    ensures u in s.loop.owing ==>
              var t := Apply(s, ByOther(Wakes(u)));
              0 < t.loop.counter && t.loop.owing == s.loop.owing - {u} && Queued(t) == Queued(s)
  {
  }

  // ------------------------------------------------------------ send and shutdown

  /** send on the loop thread: run at once if the connection is open, ignored if not. */
  lemma OwnSendTakesEffect(s: State, c: ConnId, bytes: seq<byte>, w: int)
    requires InUserCode(s) && EnabledOwn(s, OwnSend(c, bytes, w))
    ensures var t := Apply(s, ByUser(OwnSend(c, bytes, w)));
            && OnlyEntry(s, t, c)
            && var e, e' := s.conns[c], t.conns[c];
               if e.k.state != Connected then e' == e
               else
                 && e'.accepted == e.accepted + [Msg(OWNER, bytes)] && e'.k.ran == e.k.ran + [Msg(OWNER, bytes)]
                 && e'.k.wire == e.k.wire + bytes[..if !e.k.reg.IsWriting() && e.k.out == [] && w > 0 then w else 0]
  {
    assert bytes[..0] == [];
  }

  /** send on another thread: begun if the connection is open ... */
  lemma SendBeginTakesEffect(s: State, u: Tid, c: ConnId, bytes: seq<byte>)
    requires Idle(s, u) && c in s.conns
    ensures EnabledOther(s, SendBegins(u, c, bytes)) <==> s.conns[c].k.state == Connected
    ensures s.conns[c].k.state == Connected ==>
              var t := Apply(s, ByOther(SendBegins(u, c, bytes)));
              t == s.(sending := s.sending[u := (c, bytes)])
  {
  }

  /** ... and then accepted and queued as one functor. */
  lemma SendQueueTakesEffect(s: State, u: Tid)
    requires EnabledOther(s, SendQueues(u))
    ensures var t := Apply(s, ByOther(SendQueues(u)));
            var (c, bytes) := s.sending[u];
            && OnlyEntry(s, t, c) && t.conns[c] == s.conns[c].(accepted := s.conns[c].accepted + [Msg(u, bytes)])
            && Queued(t) == Queued(s) + [SendLater(c, Msg(u, bytes))]
            && t.sending == s.sending - {u} && t.loop.owing == s.loop.owing + {u}
  {
    L.FunctorsSnoc(s.loop.pushed, L.Job(Begun(s, u), s.loop.swaps));
  }

  lemma ShutdownTakesEffect(s: State, c: ConnId)
    requires InUserCode(s) && c in s.conns
    ensures var t := Apply(s, ByUser(OwnShutdown(c)));
            && OnlyEntry(s, t, c)
            && var e, e' := s.conns[c], t.conns[c];
               if e.k.state != Connected then e' == e
               else e'.k.state == Disconnecting && e'.k.fins == e.k.fins + if e.k.reg.IsWriting() then 0 else 1
  {
  }

  // ------------------------------------------------------------ the server's part

  /** newConnection: established at once on the loop's own thread, by a functor from another. */
  lemma AcceptTakesEffect(s: State, u: Tid, c: ConnId, notify: bool)
    requires c !in s.conns
    ensures InUserCode(s) ==>
              var t := Apply(s, ByUser(OwnAccepts(c, notify)));
              && OnlyEntry(s, t, c)
              && var k := t.conns[c].k;
                 k.state == Connected && k.notify == notify && k.reg.kernel == Some(R.READ_EVENT)
    ensures Idle(s, u) ==>
              var t := Apply(s, ByOther(Accepts(u, c, notify)));
              && OnlyEntry(s, t, c) && Queued(t) == Queued(s) + [Established(c)] && t.loop.owing == s.loop.owing + {u}
              && var k := t.conns[c].k;
                 k.state == Connecting && k.notify == notify && k.reg.kernel == None
  {
    L.FunctorsSnoc(s.loop.pushed, L.Job(Established(c), s.loop.swaps));
  }

  /** removeConnectionInLoop: connectionDestroyed is queued, on either thread. */
  lemma RemoveTakesEffect(s: State, u: Tid, c: ConnId)
    requires c in s.conns && 0 < s.conns[c].closing
    ensures InUserCode(s) ==>
              var t := Apply(s, ByUser(OwnRemoves(c)));
              && Queued(t) == Queued(s) + [Destroyed(c)]
              && OnlyEntry(s, t, c) && t.conns[c] == s.conns[c].(closing := s.conns[c].closing - 1)
    ensures Idle(s, u) ==>
              var t := Apply(s, ByOther(Removes(u, c)));
              && Queued(t) == Queued(s) + [Destroyed(c)] && t.loop.owing == s.loop.owing + {u}
              && OnlyEntry(s, t, c) && t.conns[c] == s.conns[c].(closing := s.conns[c].closing - 1)
  {
    L.FunctorsSnoc(s.loop.pushed, L.Job(Destroyed(c), s.loop.swaps));
  }

  // ------------------------------------------------------------ events

  /** The poll hands over what it reports, and the first handler is next. */
  lemma PollTakesEffect(s: State, ready: seq<Ready>)
    requires EnabledTurn(s, Polls(ready))
    ensures var t := Apply(s, ByLoop(Polls(ready)));
            && t.active == ready && t.at == 0 && t.stage == AtHup && t.conns == s.conns
            && t.loop.handling && t.loop.counter == s.loop.counter && Queued(t) == Queued(s)
  {
  }

  /** The close branch closes exactly on a hang-up without input. */
  lemma HupTakesEffect(s: State)
    requires EnabledTurn(s, OnHup)
    ensures var t := Apply(s, ByLoop(OnHup));
            var (c, r) := (s.active[s.at].conn, s.active[s.at].revents);
            && OnlyEntry(s, t, c)
            && if r.hup && !r.input then Closes(t.conns[c], s.conns[c]) else t.conns[c] == s.conns[c]
  {
  }

  /** The read branch closes exactly on an end of file, if input, urgent data or a half-close is reported. */
  lemma ReadTakesEffect(s: State, n: int)
    requires EnabledTurn(s, OnRead(n))
    ensures var t := Apply(s, ByLoop(OnRead(n)));
            var (c, r) := (s.active[s.at].conn, s.active[s.at].revents);
            && OnlyEntry(s, t, c)
            && if (r.input || r.pri || r.rdhup) && n == 0 then Closes(t.conns[c], s.conns[c])
               else t.conns[c] == s.conns[c]
  {
  }

  /** The connection is closed once more, and owed a connectionDestroyed. */
  ghost predicate Closes(e: Entry, was: Entry) {
    && e.k.state == Disconnected && e.k.closes == was.k.closes + 1 && e.k.downs == was.k.downs + 1
    && e.closing == was.closing + 1 && e.k.reg.events == R.NONE_EVENT
    && e.k.ran == was.k.ran && e.k.wire == was.k.wire && e.k.out == was.k.out && e.accepted == was.accepted
  }

  /** The write branch moves what write(2) takes, exactly if writing is reported and asked for. */
  lemma WriteTakesEffect(s: State, w: int)
    requires EnabledTurn(s, OnWrite(w))
    ensures var t := Apply(s, ByLoop(OnWrite(w)));
            var (c, r) := (s.active[s.at].conn, s.active[s.at].revents);
            && OnlyEntry(s, t, c)
            && var (k, k') := (s.conns[c].k, t.conns[c].k);
               var moved := if r.out && k.reg.IsWriting() && w > 0 then w else 0;
               k'.wire == k.wire + k.out[..moved] && k'.out == k.out[moved..] && k'.state == k.state
  {
    WriteMoves(Handled(s), w);
    WriteKeepsHistory(Handled(s), w);
  }

  lemma WriteMoves(k: Conn, w: int)
    requires -1 <= w <= |k.out|
    ensures var moved := if k.reg.IsWriting() && w > 0 then w else 0;
            var t := HandleWrite(k, w).conn;
            t.wire == k.wire + k.out[..moved] && t.out == k.out[moved..]
    ensures k.wire + k.out[..0] == k.wire && k.out[0..] == k.out
  {
    if k.reg.IsWriting() && w > 0 && w == |k.out| {
      DrainedKeepsStreams(AfterWrite(k, w));
    }
  }

  lemma DrainedKeepsStreams(k: Conn)
    ensures WithoutBacklog(k).wire == k.wire && WithoutBacklog(k).out == k.out
  {
  }

  // ------------------------------------------------------------ functors

  /** What a functor of the library does to its connection when it runs. */
  ghost predicate Ran(f: Functor, w: int, e: Entry, was: Entry)
    requires f.SendLater? ==> -1 <= w <= |f.msg.bytes|
  {
    match f
    case SendLater(_, m) =>
      && e.k.ran == was.k.ran + [m] && e.accepted == was.accepted
      && e.k.wire == was.k.wire + m.bytes[..if !was.k.reg.IsWriting() && was.k.out == [] && w > 0 then w else 0]
    case Established(_) => e.k.state == Connected && e.k.reg.IsReading()
    case Destroyed(_) => e.k.state == Disconnected && e.k.destroyed == was.k.destroyed + 1 && !e.k.reg.mapped
    case _ => e == was
  }

  lemma BodyTakesEffect(s: State, w: int)
    requires EnabledTurn(s, Body(w))
    ensures var (t, f) := (Apply(s, ByLoop(Body(w))), s.body.value);
            && t.body == None
            && (f.User? || f.WriteComplete? ==> t.conns == s.conns)
            && (!f.User? && f.conn in s.conns ==>
                  OnlyEntry(s, t, f.conn) && Ran(f, w, t.conns[f.conn], s.conns[f.conn]))
  {
    TurnTouches(s, Body(w));
    var f := s.body.value;
    if HasEffect(f) && f.conn in s.conns {
      EffectRuns(f, w, s.conns[f.conn]);
    }
  }

  lemma EffectRuns(f: Functor, w: int, e: Entry)
    requires HasEffect(f) && (f.SendLater? ==> -1 <= w <= |f.msg.bytes|)
    ensures Ran(f, w, Effect(e, f, w), e)
  {
  }

  // ------------------------------------------------------------ what is queued is run

  /** What a call or an event hands to queueInLoop, if anything. */
  function Asked(s: State, a: Action): Option<Functor>
    requires Enabled(s, a)
  {
    match a
    case ByUser(OwnQueues(id)) => Some(User(id))
    case ByOther(Queues(_, id)) => Some(User(id))
    case ByOther(SendQueues(t)) => Some(Begun(s, t))
    case ByOther(Accepts(_, c, _)) => Some(Established(c))
    case ByOther(Removes(_, c)) => Some(Destroyed(c))
    case ByUser(OwnRemoves(c)) => Some(Destroyed(c))
    case ByUser(OwnSend(c, _, _)) => if Delivers(s, a, c) then Some(WriteComplete(c)) else None
    case ByLoop(OnWrite(_)) =>
      var c := s.active[s.at].conn;
      if Delivers(s, a, c) then Some(WriteComplete(c)) else None
    case ByLoop(Body(_)) =>
      var f := s.body.value;
      if f.SendLater? && Delivers(s, a, f.conn) then Some(WriteComplete(f.conn)) else None
    case _ => None
  }

  lemma TurnAsks(s: State, a: Turn)
    requires EnabledTurn(s, a)
    ensures Pushes(TurnAct(s, a)) == Asked(s, ByLoop(a))
  {
    match a
    case OnWrite(w) =>
    case Body(w) =>
    case _ =>
  }

  lemma OwnAsks(s: State, a: Own)
    requires InUserCode(s) && EnabledOwn(s, a)
    ensures Pushes(OwnAct(s, a)) == Asked(s, ByUser(a))
  {
  }

  lemma StepAsks(s: State, a: Action)
    requires Enabled(s, a)
    ensures Pushes(LoopAct(s, a)) == Asked(s, a)
  {
    match a
    case ByOther(_) =>
    case ByUser(own) => OwnAsks(s, own);
    case ByLoop(turn) => TurnAsks(s, turn);
  }

  /** The queue's history after a step. */
  function Recorded(s: State, a: Action): seq<L.Job<Functor>>
    requires Enabled(s, a)
  {
    if Asked(s, a).Some? then s.loop.pushed + [L.Job(Asked(s, a).value, s.loop.swaps)] else s.loop.pushed
  }

  /** What is asked for is queued, last, and nothing else is. */
  lemma StepRecords(s: State, a: Action)
    requires Enabled(s, a)
    ensures Apply(s, a).loop.pushed == Recorded(s, a)
  {
    StepProjects(s, a);
    StepAsks(s, a);
    if LoopAct(s, a).Some? {
      ApplyPushes(s.loop, LoopAct(s, a).value);
    }
  }

  lemma {:induction false} HistoryGrows(s: State, acts: seq<Action>)
    requires Legal(s, acts)
    ensures s.loop.pushed <= Run(s, acts).loop.pushed
    decreases |acts|
  {
    if acts != [] {
      StepRecords(s, acts[0]);
      HistoryGrows(Apply(s, acts[0]), acts[1..]);
    }
  }

  /** A legal run, cut in two. */
  lemma {:induction false} Cut(s: State, acts: seq<Action>, n: nat)
    requires Legal(s, acts) && n <= |acts|
    ensures Legal(s, acts[..n]) && Leads(Run(s, acts[..n]), acts[n..], Run(s, acts))
    decreases n
  {
    if n == 0 {
      assert acts[..0] == [] && acts[0..] == acts;
    } else {
      assert acts[..n][1..] == acts[1..][..n - 1] && acts[n..] == acts[1..][n - 1..];
      Cut(Apply(s, acts[0]), acts[1..], n - 1);
    }
  }

  /** Where the n-th step of a run finds the reactor. */
  ghost function Before(acts: seq<Action>, n: nat): State
    requires Legal(Start(), acts) && n < |acts|
  {
    Cut(Start(), acts, n);
    Run(Start(), acts[..n])
  }

  lemma NthStep(acts: seq<Action>, n: nat)
    requires Legal(Start(), acts) && n < |acts|
    ensures Enabled(Before(acts, n), acts[n])
    ensures Apply(Before(acts, n), acts[n]).loop.pushed <= Run(Start(), acts).loop.pushed
  {
    Cut(Start(), acts, n);
    assert acts[n..][0] == acts[n] && acts[n..][1..] == acts[n + 1..];
    HistoryGrows(Apply(Before(acts, n), acts[n]), acts[n + 1..]);
  }

  /**
   * What the n-th step of a run hands to queueInLoop is called exactly once: as
   * the functor of its own place in the history, in the batch after the one that
   * was current at that step, and once that batch is over, it has been.
   */
  lemma AskedRunsInTheNextBatch(acts: seq<Action>, n: nat)
    requires Legal(Start(), acts) && n < |acts|
    ensures Enabled(Before(acts, n), acts[n])
    ensures var s, l := Before(acts, n), Run(Start(), acts).loop;
            Asked(s, acts[n]).Some? ==>
              var i := |s.loop.pushed|;
              && i < |l.pushed| && l.pushed[i] == L.Job(Asked(s, acts[n]).value, s.loop.swaps)
              && (i < |l.executed| ==> l.executed[i] == l.pushed[i] && i < |l.ranIn| && l.ranIn[i] == s.loop.swaps + 1)
              && (s.loop.swaps + 1 < l.swaps ==> i < |l.executed|)
  {
    var s := Before(acts, n);
    NthStep(acts, n);
    StepRecords(s, acts[n]);
    if Asked(s, acts[n]).Some? {
      FunctorRunsInTheNextBatch(acts, |s.loop.pushed|);
    }
  }
}
