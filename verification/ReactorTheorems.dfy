/** What the reactor promises, over every run from its start. */
module ReactorTheorems {
  import opened Basics
  import opened Connection
  import opened Reactor
  import opened ReactorInvariant
  import opened ReactorProgress
  import opened ReactorSteps
  import R = Registration
  import L = LoopProtocol

  /** A state that some run reaches. */
  ghost predicate Reachable(s: State) {
    exists acts: seq<Action> :: Legal(Start(), acts) && Run(Start(), acts) == s
  }

  lemma ReachableIsInv(s: State)
    requires Reachable(s)
    ensures Inv(s)
  {
    var acts: seq<Action> :| Legal(Start(), acts) && Run(Start(), acts) == s;
    ReachableInv(acts);
  }

  lemma ReachableIsOk(s: State, c: ConnId)
    requires Reachable(s) && c in s.conns
    ensures s.conns[c].k.Ok()
  {
    ReachableIsInv(s);
  }

  lemma StartIsReachable()
    ensures Reachable(Start())
  {
    assert Legal(Start(), []) && Run(Start(), []) == Start();
  }

  lemma ReachableRun(s: State, acts: seq<Action>)
    requires Reachable(s) && Legal(s, acts)
    ensures Reachable(Run(s, acts))
  {
    var before: seq<Action> :| Legal(Start(), before) && Run(Start(), before) == s;
    LeadsOn(Start(), before, s, acts, Run(s, acts));
  }

  lemma ReachableStep(s: State, a: Action)
    requires Reachable(s) && Enabled(s, a)
    ensures Reachable(Apply(s, a))
  {
    LeadsOne(s, a);
    ReachableRun(s, [a]);
  }

  // ------------------------------------------------------------ the loop inside the reactor

  /** The loop of a reactor does nothing that LoopProtocol does not do, so all that is proved there holds here. */
  lemma {:induction false} LoopRefinesProtocol(s: State, acts: seq<Action>) returns (loopActs: seq<L.Act<Functor>>)
    requires Legal(s, acts)
    ensures L.Legal(s.loop, loopActs) && L.Run(s.loop, loopActs) == Run(s, acts).loop
    decreases |acts|
  {
    if acts == [] {
      loopActs := [];
    } else {
      StepProjects(s, acts[0]);
      var act := LoopAct(s, acts[0]);
      loopActs := LoopRefinesProtocol(Apply(s, acts[0]), acts[1..]);
      if act.Some? {
        var rest := loopActs;
        loopActs := [act.value] + rest;
        assert loopActs[1..] == rest;
      }
    }
  }

  /**
   * So a functor that anyone hands to a reactor's loop is called in the very next
   * batch, exactly once and in the order of the calls of queueInLoop.
   */
  lemma FunctorRunsInTheNextBatch(acts: seq<Action>, i: nat)
    requires Legal(Start(), acts) && i < |Run(Start(), acts).loop.pushed|
    ensures var l := Run(Start(), acts).loop;
            && (i < |l.executed| ==>
                  l.executed[i] == l.pushed[i] && i < |l.ranIn| && l.ranIn[i] == l.pushed[i].born + 1)
            && (l.pushed[i].born + 1 < l.swaps ==> i < |l.executed|)
  {
    var loopActs := LoopRefinesProtocol(Start(), acts);
    L.RunsInTheNextBatch(loopActs, i);
  }

  // ------------------------------------------------------------ messages

  /**
   * End to end: what is on the wire, with the backlog behind it, is whole
   * messages one after the other; and of each thread's messages it is the first
   * ones that thread sent, in the order of its calls. Those of the loop thread
   * are all there, for they overtake what is queued.
   */
  lemma WholeMessagesInThreadOrder(s: State, c: ConnId, t: Tid)
    requires Reachable(s) && c in s.conns
    ensures var e := s.conns[c];
            && e.k.wire + e.k.out == Text(e.k.ran)
            && By(t, e.k.ran) <= By(t, e.accepted)
            && By(OWNER, e.k.ran) == By(OWNER, e.accepted)
  {
    ReachableIsInv(s);
    var e := s.conns[c];
    assert e.k.Ok() && QueueOk(c, e, s.Work());
    assert OrderKept(t, e, Sends(s.Work(), c));
    assert OrderKept(OWNER, e, Sends(s.Work(), c));
    NothingAdded(By(OWNER, e.k.ran));
  }

  /**
   * Nothing is forgotten: a reactor at rest has run every functor, so every
   * accepted message of every connection was run; and what of an open connection's
   * messages is not on the wire is waiting for an event the kernel will report.
   */
  lemma NothingForgottenAtRest(s: State, c: ConnId)
    requires Reachable(s) && AtRest(s) && c in s.conns
    ensures Inv(s) && s.Work() == [] && !s.loop.quit
    ensures var e := s.conns[c];
            && (forall t: Tid :: By(t, e.k.ran) == By(t, e.accepted))
            && |e.k.wire| + |e.k.out| == Size(e.accepted)
            && e.k.state != Connecting
            && e.k.closes == e.closing + e.k.destroyed
            && (e.k.Open() && e.k.out != [] ==> e.k.reg.kernel.Some? && e.k.reg.kernel.value.out)
  {
    ReachableIsInv(s);
    var e := s.conns[c];
    assert s.loop.pending == [];
    assert s.Work() == [];
    assert e.k.Ok() && QueueOk(c, e, s.Work());
    forall t: Tid ensures By(t, e.k.ran) == By(t, e.accepted) {
      assert OrderKept(t, e, []);
      NothingAdded(By(t, e.k.ran));
    }
    SizeIsTextLength(e.k.ran);
    assert |e.k.wire + e.k.out| == |Text(e.k.ran)|;
  }

  /** Three layers, one answer: backlog, the handler's mask and the kernel's mask agree while a connection is open. */
  lemma InterestMatchesBacklogInKernel(s: State, c: ConnId)
    requires Reachable(s) && c in s.conns && s.conns[c].k.Open()
    ensures var k := s.conns[c].k;
            && (k.out != [] <==> k.reg.IsWriting())
            && k.reg.kernel == Some(k.reg.events) && k.reg.IsReading()
            && k.reg.mapped && !k.reg.fault
  {
    ReachableIsInv(s);
    assert s.conns[c].k.Ok();
  }

  // ------------------------------------------------------------ bytes

  /**
   * Every accepted message and byte is in one place: of the messages each thread
   * sent the first ones ran and the others are queued, in order; what ran is on
   * the wire or behind it in the backlog; and the bytes add up.
   */
  lemma AcceptedBytesAccounted(s: State, c: ConnId)
    requires Reachable(s) && c in s.conns
    ensures Inv(s)
    ensures var e, queued := s.conns[c], Sends(s.Work(), c);
            && e.k.wire + e.k.out == Text(e.k.ran)
            && (forall t: Tid :: By(t, e.accepted) == By(t, e.k.ran) + By(t, queued))
            && Size(e.accepted) == |e.k.wire| + |e.k.out| + Size(queued)
  {
    ReachableIsInv(s);
    var e := s.conns[c];
    assert e.k.Ok() && QueueOk(c, e, s.Work());
    forall t: Tid ensures By(t, e.accepted) == By(t, e.k.ran) + By(t, Sends(s.Work(), c)) {
      assert OrderKept(t, e, Sends(s.Work(), c));
    }
    SizeIsTextLength(e.k.ran);
    assert |e.k.wire + e.k.out| == |Text(e.k.ran)|;
  }

  // ------------------------------------------------------------ teardown

  /**
   * A close is owed exactly one connectionDestroyed: it is still with
   * removeConnectionInLoop, or queued, or it has run. Unless a send came too
   * late (ReactorFinality says exactly when one can) there is at most one of each, no assert has failed, and a closed
   * connection is not in the kernel's set: the registration that disableAll
   * makes of an unregistered handler never outlives connectionDestroyed. The
   * connection-down callback has by then run twice, which is what the source does.
   */
  lemma ClosedOnceDestroyedOnce(s: State, c: ConnId)
    requires Reachable(s) && c in s.conns
    ensures Inv(s)
    ensures var e := s.conns[c];
            && e.k.closes == e.closing + Count(s.Work(), Destroyed(c)) + e.k.destroyed
            && !e.k.reg.fault
            && (!e.k.lateSend ==>
                  && e.k.closes <= 1 && e.k.destroyed <= 1 && !e.k.badAssert
                  && (e.k.state == Disconnected ==> e.k.reg.kernel.None?)
                  && (e.k.destroyed == 1 ==> e.k.reg == R.FRESH && e.k.downs == 2))
  {
    ReachableIsInv(s);
    var e := s.conns[c];
    assert e.k.Ok() && QueueOk(c, e, s.Work());
  }

  /** While handlers run, those still to come are in the kernel's set, and the current one is still in the map. */
  lemma ActiveHandlersStayRegistered(s: State, j: nat)
    requires Reachable(s) && s.loop.handling
    requires s.at <= j < |s.active| && s.active[j].Event?
    ensures var c := s.active[j].conn;
            && c in s.conns && s.conns[c].k.reg.mapped
            && (s.at < j ==> s.conns[c].k.reg.kernel.Some?)
  {
    ReachableIsInv(s);
    var Event(c, revents) := s.active[j];
    assert s.conns[c].k.Ok();
  }

  /** The step that a queued connectionDestroyed takes. */
  predicate Destroys(s: State, a: Action, c: ConnId) {
    a.ByLoop? && a.turn.Body? && s.body == Some(Destroyed(c))
  }

  /** Only ConnectionDestroyed makes a known handler unknown. */
  ghost predicate StaysKnown(k: Conn, was: Conn) {
    was.reg.state != R.New ==> k.reg.state != R.New
  }

  lemma BranchStaysKnown(k: Conn, revents: R.Mask, n: int, w: int)
    requires -1 <= w <= |k.out|
    ensures StaysKnown(HupBranch(k, revents), k) && StaysKnown(ReadBranch(k, revents, n), k)
    ensures StaysKnown(WriteBranch(k, revents, w).conn, k)
  {
    WriteStaysKnown(k, w);
  }

  lemma WriteStaysKnown(k: Conn, w: int)
    requires -1 <= w <= |k.out|
    ensures StaysKnown(HandleWrite(k, w).conn, k)
  {
    if k.reg.IsWriting() && w > 0 && w == |k.out| {
      WithoutBacklogStaysKnown(AfterWrite(k, w));
    }
  }

  lemma WithoutBacklogStaysKnown(k: Conn)
    ensures StaysKnown(WithoutBacklog(k), k)
  {
    assert WithoutBacklog(k).reg == R.DisableWriting(k.reg);
    R.UpdateIsKnown(k.reg, k.reg.events.AndNot(R.WRITE_EVENT));
  }

  lemma EffectStaysKnown(e: Entry, f: Functor, w: int)
    requires f.SendLater? ==> -1 <= w <= |f.msg.bytes|
    requires !f.Destroyed?
    ensures StaysKnown(Effect(e, f, w).k, e.k)
  {
  }

  lemma TurnStaysKnown(s: State, a: Turn, c: ConnId)
    requires EnabledTurn(s, a) && !Destroys(s, ByLoop(a), c) && c in s.conns
    ensures TurnTouch(s, a).Touched? && TurnTouch(s, a).c == c ==> StaysKnown(TurnTouch(s, a).e.k, s.conns[c].k)
  {
    match a
    case OnHup => BranchStaysKnown(Handled(s), s.active[s.at].revents, 0, 0);
    case OnRead(n) => BranchStaysKnown(Handled(s), s.active[s.at].revents, n, 0);
    case OnWrite(w) => BranchStaysKnown(Handled(s), s.active[s.at].revents, 0, w);
    case Body(w) =>
      if !s.body.value.Destroyed? {
        EffectStaysKnown(s.conns[c], s.body.value, w);
      }
    case _ =>
  }

  lemma StepStaysKnown(s: State, a: Action, c: ConnId)
    requires Enabled(s, a) && !Destroys(s, a, c) && c in s.conns
    ensures StepTouch(s, a).Touched? && StepTouch(s, a).c == c ==> StaysKnown(StepTouch(s, a).e.k, s.conns[c].k)
  {
    match a
    case ByOther(other) => OtherStaysRegistered(s, other);
    case ByUser(own) => OwnStaysRegistered(s, own);
    case ByLoop(turn) => TurnStaysKnown(s, turn, c);
  }

  lemma RegistrationsOk(s: State, c: ConnId)
    requires Reachable(s)
    ensures c in s.conns ==> s.conns[c].k.reg.Ok()
    ensures L.FlagsOk(s.loop)
  {
    ReachableIsInv(s);
    assert c in s.conns ==> s.conns[c].k.Ok();
  }

  /** connectionDestroyed runs as a functor, outside the dispatch, and leaves nothing of the handler. */
  lemma DestroyedRunsInABatch(s: State, a: Action, c: ConnId)
    requires L.FlagsOk(s.loop) && Enabled(s, a) && c in s.conns && Destroys(s, a, c)
    requires s.conns[c].k.reg.Ok()
    ensures !s.loop.handling && s.loop.calling
    ensures StepTouch(s, a).Touched? && StepTouch(s, a).c == c && StepTouch(s, a).e.k.reg == R.FRESH
  {
    R.TeardownFromAnyState(s.conns[c].k.reg);
  }

  /**
   * A handler leaves the poller's map in one way only: by connectionDestroyed, run
   * as a queued functor, never while handlers are dispatched. So the assert of
   * EventLoop::removeHandler holds.
   */
  lemma OnlyDestroyedUnregisters(s: State, a: Action, c: ConnId)
    requires Reachable(s) && Enabled(s, a) && c in s.conns
    ensures c in Apply(s, a).conns
    ensures var was, now := s.conns[c].k.reg, Apply(s, a).conns[c].k.reg;
            && (was.mapped && !now.mapped ==> Destroys(s, a, c))
            && (Destroys(s, a, c) ==> !s.loop.handling && s.loop.calling && now == R.FRESH)
  {
    StepTouches(s, a);
    RegistrationsOk(s, c);
    if Destroys(s, a, c) {
      DestroyedRunsInABatch(s, a, c);
    } else {
      ReachableStep(s, a);
      RegistrationsOk(Apply(s, a), c);
      StepStaysKnown(s, a, c);
    }
  }
}
