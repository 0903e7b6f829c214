/**
 * shutdown while a backlog is waiting: the half-close is put off, and what is on
 * its way at the call may still be in time. When exactly depends on where the
 * loop thread is.
 */
module ReactorShutdown {
  import opened Basics
  import opened Connection
  import opened Reactor
  import opened ReactorFinality
  import opened ReactorInvariant
  import opened ReactorProgress
  import opened ReactorSteps
  import opened ReactorTheorems
  import R = Registration
  import L = LoopProtocol

  // ------------------------------------------------------------ what is still to come in a dispatch

  /** The j-th event of this dispatch is of `c`, and not yet done with. */
  predicate EventAhead(s: State, c: ConnId, j: nat) {
    s.at <= j < |s.active| && s.active[j].Event? && s.active[j].conn == c
  }

  /** Its close branch is still to run, and will close. */
  predicate Hangs(s: State, j: nat)
    requires j < |s.active| && s.active[j].Event?
  {
    s.active[j].revents.hup && !s.active[j].revents.input && (s.at < j || s.stage == AtHup)
  }

  /** This dispatch will close `c`. */
  ghost predicate ClosesAhead(s: State, c: ConnId) {
    s.loop.pc == L.Dispatching && exists j: nat :: EventAhead(s, c, j) && Hangs(s, j)
  }

  /** This dispatch will call handleWrite for `c`, which is open by then. */
  ghost predicate WritesAhead(s: State, c: ConnId) {
    s.loop.pc == L.Dispatching && exists j: nat :: EventAhead(s, c, j) && !Hangs(s, j) && s.active[j].revents.out
  }

  /** No send to `c` waits for the next batch. */
  ghost predicate NoneWaiting(l: L.Loop<Functor>, c: ConnId) {
    Sends(L.Functors(l.pending), c) == []
  }

  /** In a dispatch there is at most one event of a connection. */
  lemma OneEvent(s: State, c: ConnId, i: nat, j: nat)
    requires DispatchOk(s) && s.loop.pc == L.Dispatching && EventAhead(s, c, i) && EventAhead(s, c, j)
    ensures i == j
  {
  }

  /** What a caller of shutdown can check: everything that is on its way will be run before the half-close. */
  ghost predicate InTime(s: State, c: ConnId)
    requires c in s.conns
  {
    if s.conns[c].k.out == [] then Silent(s, c)
    else
      || ClosesAhead(s, c)
      || (NotSending(s.sending, c)
          && (if s.loop.pc == L.Calling then NoneWaiting(s.loop, c) else Silent(s, c) || !WritesAhead(s, c)))
  }

  /** The loop's flags at a dispatch and outside a batch. */
  lemma DispatchFlags(s: State)
    requires Inv(s)
    ensures s.loop.pc == L.Dispatching ==> !s.loop.selfOwes && DispatchOk(s)
    ensures s.loop.pc != L.Calling ==> !s.loop.selfOwes && s.body.None?
    ensures L.FlagsOk(s.loop)
  {
  }

  // ------------------------------------------------------------ in time: an invariant

  /** The half-close has not gone out, and `c` refuses sends. */
  ghost predicate NotYet(s: State, c: ConnId) {
    c in s.conns && s.conns[c].k.fins == 0 && Refusing(s.conns[c].k)
  }

  /** It never will: the connection is closed. */
  ghost predicate ClosedFirst(s: State, c: ConnId) {
    NotYet(s, c) && s.conns[c].k.state == Disconnected
  }

  /** It never will: this dispatch closes the connection. */
  ghost predicate WillClose(s: State, c: ConnId) {
    NotYet(s, c) && ClosesAhead(s, c)
  }

  /** It will not in this dispatch, and no send is begun; what is queued goes into the next batch. */
  ghost predicate BeforeBatch(s: State, c: ConnId) {
    && NotYet(s, c) && NotSending(s.sending, c)
    && (s.loop.pc == L.Dispatched || s.loop.pc == L.Swapping || (s.loop.pc == L.Dispatching && !WritesAhead(s, c)))
  }

  /** Everything that is queued is in the batch that is running. */
  ghost predicate InBatch(s: State, c: ConnId) {
    && NotYet(s, c) && NotSending(s.sending, c)
    && (s.loop.pc == L.Between || s.loop.pc == L.Calling) && NoneWaiting(s.loop, c)
  }

  /** Nothing is on its way, whether or not the half-close has gone out. */
  ghost predicate Done(s: State, c: ConnId) {
    c in s.conns && Refusing(s.conns[c].k) && !s.conns[c].k.sentAfterFin && Silent(s, c)
  }

  ghost predicate Graceful(s: State, c: ConnId) {
    ClosedFirst(s, c) || WillClose(s, c) || BeforeBatch(s, c) || InBatch(s, c) || Done(s, c)
  }

  /** The step that shuts the write side of a connection that refuses sends. */
  predicate MayShut(s: State, a: Action, c: ConnId)
    requires Enabled(s, a)
  {
    && a.ByLoop? && a.turn.OnWrite? && s.active[s.at].conn == c && s.active[s.at].revents.out
    && s.conns[c].k.state == Disconnecting
  }

  ghost predicate TouchKeepsFins(s: State, touch: Touch, c: ConnId) {
    touch.Touched? && touch.c == c && c in s.conns ==> touch.e.k.fins == s.conns[c].k.fins
  }

  lemma OwnKeepsFins(s: State, a: Own, c: ConnId)
    requires EnabledOwn(s, a) && c in s.conns && Refusing(s.conns[c].k)
    ensures TouchKeepsFins(s, OwnTouch(s, a), c)
  {
  }

  lemma WriteKeepsFins(k: Conn, w: int)
    requires -1 <= w <= |k.out| && k.state != Disconnecting
    ensures HandleWrite(k, w).conn.fins == k.fins
  {
  }

  lemma TurnKeepsFins(s: State, a: Turn, c: ConnId)
    requires EnabledTurn(s, a) && c in s.conns && !MayShut(s, ByLoop(a), c)
    ensures TouchKeepsFins(s, TurnTouch(s, a), c)
  {
    if a.OnWrite? && s.active[s.at].conn == c && s.active[s.at].revents.out {
      WriteKeepsFins(s.conns[c].k, a.w);
    }
  }

  lemma StepTouchKeepsFins(s: State, a: Action, c: ConnId)
    requires Enabled(s, a) && c in s.conns && Refusing(s.conns[c].k) && !MayShut(s, a, c)
    ensures TouchKeepsFins(s, StepTouch(s, a), c)
  {
    match a
    case ByOther(other) =>
    case ByUser(own) => OwnKeepsFins(s, own, c);
    case ByLoop(turn) => TurnKeepsFins(s, turn, c);
  }

  lemma StepStaysNotYet(s: State, a: Action, c: ConnId)
    requires Inv(s) && Enabled(s, a) && NotYet(s, c) && !MayShut(s, a, c)
    ensures NotYet(Apply(s, a), c)
    ensures s.conns[c].k.state == Disconnected ==> Apply(s, a).conns[c].k.state == Disconnected
  {
    StepTouchKeepsFins(s, a, c);
    StepTouches(s, a);
    PutKeepsFins(s, StepTouch(s, a), c);
    StepFollows(s, a, c);
  }

  lemma PutKeepsFins(s: State, touch: Touch, c: ConnId)
    requires TouchKeepsFins(s, touch, c) && c in s.conns
    ensures c in Put(s.conns, touch) && Put(s.conns, touch)[c].k.fins == s.conns[c].k.fins
  {
  }

  /** Other threads and user code leave the dispatch where it is. */
  ghost predicate SamePlace(t: State, s: State) {
    t.loop.pc == s.loop.pc && t.active == s.active && t.at == s.at && t.stage == s.stage
  }

  lemma GuestsKeepPlace(s: State, a: Action)
    requires Enabled(s, a) && !a.ByLoop?
    ensures SamePlace(Apply(s, a), s)
  {
    match a
    case ByOther(other) => OthersKeepPlace(s, other);
    case ByUser(own) => UserKeepsPlace(s, own);
    case ByLoop(_) =>
  }

  lemma OthersKeepPlace(s: State, a: Foreign)
    requires EnabledOther(s, a)
    ensures SamePlace(ApplyOther(s, a), s)
  {
  }

  lemma UserKeepsPlace(s: State, a: Own)
    requires InUserCode(s) && EnabledOwn(s, a)
    ensures SamePlace(ApplyOwn(s, a), s)
  {
  }

  lemma SamePlaceSameAhead(t: State, s: State, c: ConnId)
    requires SamePlace(t, s)
    ensures ClosesAhead(t, c) <==> ClosesAhead(s, c)
    ensures WritesAhead(t, c) <==> WritesAhead(s, c)
  {
    assert forall j: nat :: EventAhead(t, c, j) <==> EventAhead(s, c, j);
  }

  /** How a step of the loop within a dispatch moves on. */
  lemma DispatchMoves(s: State, a: Turn)
    requires EnabledTurn(s, a) && s.loop.pc == L.Dispatching && !s.loop.selfOwes
    ensures var t := ApplyTurn(s, a);
            if a.EndsDispatch? then s.at == |s.active| && t.loop.pc == L.Dispatched
            else
              && t.loop.pc == L.Dispatching && t.active == s.active && s.at < |s.active|
              && (if a.OnHup? then s.stage == AtHup && t.at == s.at && t.stage == AtRead
                  else if a.OnRead? then s.stage == AtRead && t.at == s.at && t.stage == AtWrite
                  else if a.OnWrite? then s.stage == AtWrite && t.at == s.at + 1 && t.stage == AtHup
                  else a.ReadsWakeup? && s.active[s.at] == Wakeup && t.at == s.at + 1 && t.stage == s.stage)
  {
  }

  /** The close branch does close. */
  lemma HupCloses(s: State, c: ConnId)
    requires EnabledTurn(s, OnHup) && s.active[s.at].conn == c && Hangs(s, s.at)
    ensures c in ApplyTurn(s, OnHup).conns && ApplyTurn(s, OnHup).conns[c].k.state == Disconnected
  {
  }

  lemma WillCloseStep(s: State, a: Turn, c: ConnId)
    requires Inv(s) && EnabledTurn(s, a) && WillClose(s, c)
    ensures ClosedFirst(ApplyTurn(s, a), c) || WillClose(ApplyTurn(s, a), c)
  {
    var t := ApplyTurn(s, a);
    var j: nat :| EventAhead(s, c, j) && Hangs(s, j);
    DispatchFlags(s);
    DispatchMoves(s, a);
    if MayShut(s, ByLoop(a), c) {
      NotHanging(s, c, j);
    } else {
      StepStaysNotYet(s, ByLoop(a), c);
      if a.OnHup? && j == s.at {
        HupCloses(s, c);
      } else {
        assert EventAhead(t, c, j) && Hangs(t, j);
      }
    }
  }

  /** A handler that is at its write branch has no close to come. */
  lemma NotHanging(s: State, c: ConnId, j: nat)
    requires DispatchOk(s) && s.loop.pc == L.Dispatching && EventAhead(s, c, j) && Hangs(s, j)
    requires s.at < |s.active| && s.active[s.at].Event? && s.active[s.at].conn == c
    ensures s.stage == AtHup
  {
    OneEvent(s, c, s.at, j);
  }

  /** Nothing new is written in a step of a dispatch, unless the connection was closed by it. */
  lemma WritesBefore(s: State, a: Turn, c: ConnId)
    requires Inv(s) && EnabledTurn(s, a) && s.loop.pc == L.Dispatching && WritesAhead(ApplyTurn(s, a), c)
    ensures WritesAhead(s, c) || (c in ApplyTurn(s, a).conns && ApplyTurn(s, a).conns[c].k.state == Disconnected)
  {
    var t := ApplyTurn(s, a);
    DispatchFlags(s);
    DispatchMoves(s, a);
    var j: nat :| EventAhead(t, c, j) && !Hangs(t, j) && t.active[j].revents.out;
    assert EventAhead(s, c, j);
    if Hangs(s, j) {
      HupCloses(s, c);
    }
  }

  lemma BeforeBatchInDispatch(s: State, a: Turn, c: ConnId)
    requires Inv(s) && EnabledTurn(s, a) && BeforeBatch(s, c) && s.loop.pc == L.Dispatching
    ensures Graceful(ApplyTurn(s, a), c)
  {
    var t := ApplyTurn(s, a);
    DispatchFlags(s);
    DispatchMoves(s, a);
    ShutIsAhead(s, a, c);
    StepStaysNotYet(s, ByLoop(a), c);
    StepKeepsNotSending(s, ByLoop(a), c);
    if WritesAhead(t, c) {
      WritesBefore(s, a, c);
    }
  }

  lemma ShutIsAhead(s: State, a: Turn, c: ConnId)
    requires EnabledTurn(s, a)
    ensures MayShut(s, ByLoop(a), c) ==> WritesAhead(s, c)
  {
    if MayShut(s, ByLoop(a), c) {
      assert EventAhead(s, c, s.at) && !Hangs(s, s.at);
    }
  }

  /** A batch is taken whole. */
  lemma BeforeBatchAfterDispatch(s: State, a: Turn, c: ConnId)
    requires Inv(s) && EnabledTurn(s, a) && BeforeBatch(s, c) && s.loop.pc != L.Dispatching
    ensures BeforeBatch(ApplyTurn(s, a), c) || InBatch(ApplyTurn(s, a), c)
  {
    DispatchFlags(s);
    StepStaysNotYet(s, ByLoop(a), c);
    StepKeepsNotSending(s, ByLoop(a), c);
    SwapsAll(s, a);
  }

  lemma SwapsAll(s: State, a: Turn)
    requires EnabledTurn(s, a) && (s.loop.pc == L.Dispatched || s.loop.pc == L.Swapping) && !s.loop.selfOwes
    ensures var l := ApplyTurn(s, a).loop;
            if a.Swaps? then l.pc == L.Between && |L.Functors(l.pending)| == 0 else l.pc == L.Swapping
  {
  }

  // ------------------------------------------------------------ within a batch

  lemma PendingGrows(l: L.Loop<Functor>, act: L.Act<Functor>)
    requires L.Enabled(l, act) && !act.Swap?
    ensures L.Functors(L.Apply(l, act).pending) == Grown(L.Functors(l.pending), Some(act))
  {
    match act
    case ForeignPush(_, f) => L.FunctorsSnoc(l.pending, L.Job(f, l.swaps));
    case OwnPush(f) => L.FunctorsSnoc(l.pending, L.Job(f, l.swaps));
    case _ =>
  }

  lemma StepKeepsNoneWaiting(s: State, a: Action, c: ConnId)
    requires Enabled(s, a) && NotSending(s.sending, c) && NoneWaiting(s.loop, c) && s.loop.pc != L.Swapping
    ensures NoneWaiting(Apply(s, a).loop, c)
  {
    StepProjects(s, a);
    if LoopAct(s, a).Some? {
      PendingGrows(s.loop, LoopAct(s, a).value);
      SendsGrown(s, a, c, L.Functors(s.loop.pending));
    }
  }

  /** A step inside a batch stays inside it, or ends it with everything run. */
  lemma BatchMoves(s: State, a: Action)
    requires Enabled(s, a) && (s.loop.pc == L.Between || s.loop.pc == L.Calling) && L.FlagsOk(s.loop)
    ensures var pc := Apply(s, a).loop.pc;
            a != ByLoop(EndsBatch) ==> pc == L.Between || pc == L.Calling
  {
    StepProjects(s, a);
    EndsOnlyItself(s, a);
    if LoopAct(s, a).Some? && !LoopAct(s, a).value.EndBatch? {
      L.BatchStep(s.loop, LoopAct(s, a).value);
    }
  }

  lemma EndsOnlyItself(s: State, a: Action)
    requires Enabled(s, a)
    ensures LoopAct(s, a).Some? && LoopAct(s, a).value.EndBatch? ==> a == ByLoop(EndsBatch)
  {
  }

  lemma BatchDone(s: State, c: ConnId)
    requires LoopOk(s) && EnabledTurn(s, EndsBatch) && NoneWaiting(s.loop, c)
    ensures var t := ApplyTurn(s, EndsBatch);
            t.loop.next <= |t.loop.batch| && Sends(t.Work(), c) == []
  {
    var t := ApplyTurn(s, EndsBatch);
    assert t.loop.Queue() == s.loop.pending;
    NothingAdded(L.Functors(s.loop.pending));
  }

  lemma NoShutInBatch(s: State, a: Action, c: ConnId)
    requires Enabled(s, a) && (s.loop.pc == L.Between || s.loop.pc == L.Calling)
    ensures !MayShut(s, a, c)
  {
  }

  lemma InBatchStep(s: State, a: Action, c: ConnId)
    requires Inv(s) && Enabled(s, a) && InBatch(s, c)
    ensures InBatch(Apply(s, a), c) || Done(Apply(s, a), c)
  {
    NoShutInBatch(s, a, c);
    StepStaysNotYet(s, a, c);
    StepKeepsNotSending(s, a, c);
    if a == ByLoop(EndsBatch) {
      BatchEnds(s, c);
    } else {
      BatchGoesOn(s, a, c);
    }
  }

  lemma BatchGoesOn(s: State, a: Action, c: ConnId)
    requires Inv(s) && Enabled(s, a) && InBatch(s, c) && a != ByLoop(EndsBatch)
    ensures var l := Apply(s, a).loop;
            (l.pc == L.Between || l.pc == L.Calling) && NoneWaiting(l, c)
  {
    DispatchFlags(s);
    BatchMoves(s, a);
    StepKeepsNoneWaiting(s, a, c);
  }

  lemma BatchEnds(s: State, c: ConnId)
    requires Inv(s) && EnabledTurn(s, EndsBatch) && NoneWaiting(s.loop, c)
    requires NotYet(ApplyTurn(s, EndsBatch), c) && NotSending(ApplyTurn(s, EndsBatch).sending, c)
    ensures Done(ApplyTurn(s, EndsBatch), c)
  {
    BatchDone(s, c);
    StepKeepsInv(s, ByLoop(EndsBatch));
    NotYetSentNothing(ApplyTurn(s, EndsBatch), c);
  }

  /** Before the half-close no send is after it. */
  lemma NotYetSentNothing(s: State, c: ConnId)
    requires Inv(s) && NotYet(s, c)
    ensures !s.conns[c].k.sentAfterFin
  {
    OkIn(s, c);
  }

  lemma DoneStep(s: State, a: Action, c: ConnId)
    requires Inv(s) && Enabled(s, a) && Done(s, c)
    ensures Done(Apply(s, a), c)
  {
    StepSendsNothing(s, a, c);
    StepFollows(s, a, c);
  }

  // ------------------------------------------------------------ together

  lemma GuestStep(s: State, a: Action, c: ConnId)
    requires Inv(s) && Enabled(s, a) && !a.ByLoop? && (WillClose(s, c) || BeforeBatch(s, c))
    ensures WillClose(Apply(s, a), c) || BeforeBatch(Apply(s, a), c)
  {
    GuestsKeepPlace(s, a);
    SamePlaceSameAhead(Apply(s, a), s, c);
    StepStaysNotYet(s, a, c);
    if BeforeBatch(s, c) {
      StepKeepsNotSending(s, a, c);
    }
  }

  lemma StepStaysGraceful(s: State, a: Action, c: ConnId)
    requires Inv(s) && Enabled(s, a) && Graceful(s, c)
    ensures Graceful(Apply(s, a), c)
  {
    if Done(s, c) {
      DoneStep(s, a, c);
    } else if InBatch(s, c) {
      InBatchStep(s, a, c);
    } else if ClosedFirst(s, c) {
      StepStaysNotYet(s, a, c);
    } else if !a.ByLoop? {
      GuestStep(s, a, c);
    } else if WillClose(s, c) {
      WillCloseStep(s, a.turn, c);
    } else if s.loop.pc == L.Dispatching {
      BeforeBatchInDispatch(s, a.turn, c);
    } else {
      BeforeBatchAfterDispatch(s, a.turn, c);
    }
  }

  lemma {:induction false} RunStaysGraceful(s: State, acts: seq<Action>, c: ConnId)
    requires Inv(s) && Legal(s, acts) && Graceful(s, c)
    ensures Inv(Run(s, acts)) && Graceful(Run(s, acts), c)
    decreases |acts|
  {
    if acts != [] {
      StepStaysGraceful(s, acts[0], c);
      StepKeepsInv(s, acts[0]);
      RunStaysGraceful(Apply(s, acts[0]), acts[1..], c);
    }
  }

  lemma GracefulWritesNothing(s: State, c: ConnId)
    requires Inv(s) && Graceful(s, c)
    ensures c in s.conns && !s.conns[c].k.wroteAfterFin
  {
    OkIn(s, c);
    SentNothingWroteNothing(s.conns[c].k);
  }

  lemma SentNothingWroteNothing(k: Conn)
    requires k.Ok() && (k.fins == 0 || !k.sentAfterFin)
    ensures !k.wroteAfterFin
  {
  }

  // ------------------------------------------------------------ too late: a run that shows it

  /** The half-close waits for the backlog. */
  predicate Waiting(k: Conn) {
    k.state == Disconnecting && k.fins == 0 && k.out != []
  }

  ghost predicate Pending(s: State, c: ConnId) {
    Inv(s) && c in s.conns && Waiting(s.conns[c].k)
  }

  lemma PendingFacts(s: State, c: ConnId)
    requires Pending(s, c)
    ensures s.conns[c].k.Ok() && s.conns[c].k.reg.IsWriting()
    ensures s.conns[c].k.reg.kernel == Some(s.conns[c].k.reg.events)
  {
    assert s.conns[c].k.Ok();
  }

  /** No functor that is queued closes or establishes such a connection. */
  lemma NothingEndsIt(c: ConnId, e: Entry, work: seq<Functor>)
    requires e.k.Ok() && Waiting(e.k) && LifeOk(e, Count(work, Established(c)), Count(work, Destroyed(c)))
    requires work != []
    ensures work[0] != Established(c) && work[0] != Destroyed(c)
  {
  }

  ghost predicate TouchWaits(touch: Touch, c: ConnId) {
    touch.Touched? && touch.c == c ==> Waiting(touch.e.k)
  }

  lemma EffectWaits(e: Entry, f: Functor)
    requires Waiting(e.k) && (f.SendLater? || !HasEffect(f))
    ensures Waiting(Effect(e, f, -1).k)
  {
  }

  lemma OnwardBodyWaits(s: State, c: ConnId, work: seq<Functor>)
    requires EnabledTurn(s, Body(-1)) && Running(s, Body(-1), work)
    requires c in s.conns && Waiting(s.conns[c].k) && s.conns[c].k.Ok() && QueueOk(c, s.conns[c], work)
    ensures TouchWaits(TurnTouch(s, Body(-1)), c)
  {
    var f, e := s.body.value, s.conns[c];
    NothingEndsIt(c, e, work);
    if f.SendLater? && f.conn == c {
      EffectWaits(e, f);
    }
  }

  lemma OnwardWriteWaits(k: Conn)
    requires Waiting(k)
    ensures Waiting(HandleWrite(k, -1).conn)
  {
  }

  lemma OnwardBranchWaits(s: State, c: ConnId)
    requires EnabledTurn(s, Onward(s)) && s.loop.pc == L.Dispatching && s.at < |s.active| && s.active[s.at].Event?
    requires c in s.conns && Waiting(s.conns[c].k) && !ClosesAhead(s, c)
    ensures TouchWaits(TurnTouch(s, Onward(s)), c)
  {
    if s.active[s.at].conn == c {
      assert EventAhead(s, c, s.at);
      OnwardWriteWaits(s.conns[c].k);
    }
  }

  lemma OnwardTouchWaits(s: State, c: ConnId, work: seq<Functor>)
    requires EnabledTurn(s, Onward(s)) && Running(s, Onward(s), work)
    requires c in s.conns && Waiting(s.conns[c].k) && s.conns[c].k.Ok() && QueueOk(c, s.conns[c], work)
    requires !ClosesAhead(s, c)
    ensures TouchWaits(TurnTouch(s, Onward(s)), c)
  {
    match Onward(s)
    case Body(_) => OnwardBodyWaits(s, c, work);
    case OnHup => OnwardBranchWaits(s, c);
    case OnRead(_) => OnwardBranchWaits(s, c);
    case OnWrite(_) => OnwardBranchWaits(s, c);
    case _ =>
  }

  lemma PutWaits(conns: Conns, touch: Touch, c: ConnId)
    requires c in conns && Waiting(conns[c].k) && TouchWaits(touch, c)
    ensures c in Put(conns, touch) && Waiting(Put(conns, touch)[c].k)
  {
  }

  /** A step onward keeps the connection waiting. */
  lemma OnwardWaits(s: State, c: ConnId)
    requires Pending(s, c) && !ClosesAhead(s, c)
    ensures EnabledTurn(s, Onward(s)) && Pending(ApplyTurn(s, Onward(s)), c)
  {
    OnwardOnWork(s);
    RunsHeadOfWork(s, ByLoop(Onward(s)));
    OkIn(s, c);
    OnwardTouchWaits(s, c, s.Work());
    TurnTouches(s, Onward(s));
    PutWaits(s.conns, TurnTouch(s, Onward(s)), c);
  }

  lemma OnwardOpensNoClose(s: State, c: ConnId)
    requires EnabledTurn(s, Onward(s)) && !ClosesAhead(s, c) && (s.loop.pc == L.Dispatching ==> !s.loop.selfOwes)
    ensures !ClosesAhead(ApplyTurn(s, Onward(s)), c)
  {
    var t := ApplyTurn(s, Onward(s));
    if s.loop.pc == L.Dispatching {
      DispatchMoves(s, Onward(s));
      if ClosesAhead(t, c) {
        var j: nat :| EventAhead(t, c, j) && Hangs(t, j);
        assert EventAhead(s, c, j) && Hangs(s, j);
      }
    } else {
      OutsideOpensNone(s);
    }
  }

  /** Onward, a dispatch begins without events. */
  lemma OutsideOpensNone(s: State)
    requires EnabledTurn(s, Onward(s)) && s.loop.pc != L.Dispatching
    ensures var t := ApplyTurn(s, Onward(s));
            t.loop.pc == L.Dispatching ==> t.active == []
  {
    if s.loop.pc == L.Calling {
      CalmProjectionStays(s);
    }
  }

  lemma CalmProjectionStays(s: State)
    requires EnabledTurn(s, Onward(s)) && s.loop.pc == L.Calling
    ensures ApplyTurn(s, Onward(s)).loop.pc != L.Dispatching
  {
    TurnProjects(s, Onward(s));
    OnwardIsCalm(s);
  }

  /** On the way from a batch to the poll. */
  predicate AfterSwap(pc: L.Pc) {
    pc == L.Between || pc == L.Calling || pc == L.Testing || pc == L.Outside || pc == L.Polling
  }

  lemma CalmKeepsPending(l: L.Loop<Functor>, act: L.Act<Functor>)
    requires L.Enabled(l, act) && Calm(act) && AfterSwap(l.pc) && l.pc != L.Polling
    ensures L.Apply(l, act).pending == l.pending && AfterSwap(L.Apply(l, act).pc)
  {
  }

  lemma OnwardKeepsPending(s: State)
    requires EnabledTurn(s, Onward(s)) && AfterSwap(s.loop.pc) && s.loop.pc != L.Polling
    ensures var l := ApplyTurn(s, Onward(s)).loop;
            l.pending == s.loop.pending && AfterSwap(l.pc)
  {
    TurnProjects(s, Onward(s));
    OnwardIsCalm(s);
    if TurnAct(s, Onward(s)).Some? {
      CalmKeepsPending(s.loop, TurnAct(s, Onward(s)).value);
    }
  }

  lemma OnwardNearsPoll(s: State)
    requires Inv(s) && EnabledTurn(s, Onward(s)) && s.loop.pc != L.Polling && !Onward(s).Body?
    ensures var t := ApplyTurn(s, Onward(s));
            ToPoll(t) < ToPoll(s) || (ToPoll(t) == ToPoll(s) && Ahead(t) < Ahead(s))
  {
    DispatchFlags(s);
    if s.loop.pc == L.Dispatching {
      DispatchGetsCloser(s);
    } else {
      PollGetsCloser(s);
    }
  }

  /** What a step on the way to the poll keeps. */
  lemma PollwardStep(s: State, c: ConnId)
    requires Pending(s, c) && !ClosesAhead(s, c) && s.loop.pc != L.Polling
    ensures EnabledTurn(s, Onward(s))
    ensures var t := ApplyTurn(s, Onward(s));
            && Pending(t, c) && !ClosesAhead(t, c) && t.sending == s.sending
            && (AfterSwap(s.loop.pc) ==> AfterSwap(t.loop.pc) && t.loop.pending == s.loop.pending)
  {
    OnwardWaits(s, c);
    DispatchFlags(s);
    OnwardOpensNoClose(s, c);
    TurnSendingSame(s, Onward(s));
    if AfterSwap(s.loop.pc) {
      OnwardKeepsPending(s);
    }
  }

  ghost predicate Nearer(t: State, s: State)
    requires Inv(s) && Inv(t)
  {
    || |t.Work()| < |s.Work()|
    || (|t.Work()| == |s.Work()|
        && (ToPoll(t) < ToPoll(s) || (ToPoll(t) == ToPoll(s) && Ahead(t) < Ahead(s))))
  }

  lemma PollwardIsNearer(s: State)
    requires Inv(s) && s.loop.pc != L.Polling
    ensures EnabledTurn(s, Onward(s)) && Inv(ApplyTurn(s, Onward(s))) && Nearer(ApplyTurn(s, Onward(s)), s)
  {
    OnwardOnWork(s);
    if !Onward(s).Body? {
      OnwardNearsPoll(s);
    }
  }

  /** The loop thread comes to its poll, with the connection still waiting and everyone else where they were. */
  lemma {:induction false} ReachesPoll(s: State, c: ConnId) returns (acts: seq<Action>, u: State)
    requires Pending(s, c) && !ClosesAhead(s, c)
    ensures Leads(s, acts, u) && Pending(u, c) && u.loop.pc == L.Polling && u.sending == s.sending
    ensures AfterSwap(s.loop.pc) ==> u.loop.pending == s.loop.pending
    decreases |s.Work()|, ToPoll(s), Ahead(s)
  {
    if s.loop.pc == L.Polling {
      acts, u := [], s;
      LeadsNowhere(s);
    } else {
      PollwardStep(s, c);
      PollwardIsNearer(s);
      var t, rest := ApplyTurn(s, Onward(s)), [];
      rest, u := ReachesPoll(t, c);
      LeadsFirst(s, ByLoop(Onward(s)), rest, u);
      acts := [ByLoop(Onward(s))] + rest;
    }
  }

  /** The j-th event of the dispatch calls handleWrite for `c`. */
  ghost predicate WritesAt(s: State, c: ConnId, j: nat) {
    && s.loop.pc == L.Dispatching
    && EventAhead(s, c, j) && !Hangs(s, j) && s.active[j].revents.out
  }

  /** The report that the socket of `c` can be written. */
  function Room(c: ConnId): Turn {
    Polls([Event(c, R.WRITE_EVENT)])
  }

  lemma RoomIsReported(s: State, c: ConnId)
    requires s.loop.pc == L.Polling && c in s.conns
    requires s.conns[c].k.reg.kernel.Some? && s.conns[c].k.reg.kernel.value.out
    ensures EnabledTurn(s, Room(c))
    ensures var t := ApplyTurn(s, Room(c));
            WritesAt(t, c, 0) && t.conns == s.conns && t.sending == s.sending
  {
  }

  /** The poll reports it. */
  lemma PollReportsRoom(s: State, c: ConnId)
    requires Pending(s, c) && s.loop.pc == L.Polling
    ensures EnabledTurn(s, Room(c))
    ensures var t := ApplyTurn(s, Room(c));
            Pending(t, c) && WritesAt(t, c, 0) && t.sending == s.sending && t.Work() == s.Work()
  {
    PendingFacts(s, c);
    RoomIsReported(s, c);
    PollKeepsWork(s, [Event(c, R.WRITE_EVENT)]);
  }

  /** The handler of `c` is at its write branch. */
  ghost predicate AtWriteBranch(s: State, c: ConnId) {
    && Handling(s, AtWrite) && s.active[s.at].conn == c && s.active[s.at].revents.out
  }

  lemma NoCloseBefore(s: State, c: ConnId, j: nat)
    requires DispatchOk(s) && WritesAt(s, c, j)
    ensures !ClosesAhead(s, c)
  {
    forall i: nat | EventAhead(s, c, i) ensures !Hangs(s, i) {
      OneEvent(s, c, i, j);
    }
  }

  lemma OnwardWritesAt(s: State, c: ConnId, j: nat)
    requires EnabledTurn(s, Onward(s)) && WritesAt(s, c, j) && !s.loop.selfOwes
    requires s.at == j ==> s.stage != AtWrite
    ensures WritesAt(ApplyTurn(s, Onward(s)), c, j)
  {
    DispatchMoves(s, Onward(s));
  }

  lemma WriteBranchStep(s: State, c: ConnId, j: nat)
    requires Pending(s, c) && WritesAt(s, c, j) && (s.at == j ==> s.stage != AtWrite)
    ensures EnabledTurn(s, Onward(s))
    ensures var t := ApplyTurn(s, Onward(s));
            && Pending(t, c) && WritesAt(t, c, j) && Ahead(t) < Ahead(s)
            && t.sending == s.sending && t.Work() == s.Work()
  {
    DispatchFlags(s);
    NoCloseBefore(s, c, j);
    OnwardOnWork(s);
    OnwardWaits(s, c);
    OnwardWritesAt(s, c, j);
    WriteBranchIsNearer(s);
    TurnSendingSame(s, Onward(s));
  }

  lemma WriteBranchIsNearer(s: State)
    requires EnabledTurn(s, Onward(s)) && s.loop.pc == L.Dispatching && DispatchOk(s) && s.at < |s.active|
    ensures Ahead(ApplyTurn(s, Onward(s))) < Ahead(s) && !Onward(s).Body?
  {
    DispatchGetsCloser(s);
    DispatchStaysInDispatch(s);
  }

  lemma {:induction false} ReachesWriteBranch(s: State, c: ConnId, j: nat) returns (acts: seq<Action>, u: State)
    requires Pending(s, c) && WritesAt(s, c, j)
    ensures Leads(s, acts, u) && Pending(u, c) && AtWriteBranch(u, c)
    ensures u.sending == s.sending && u.Work() == s.Work()
    decreases Ahead(s)
  {
    if s.at == j && s.stage == AtWrite {
      acts, u := [], s;
      LeadsNowhere(s);
      DispatchFlags(s);
    } else {
      WriteBranchStep(s, c, j);
      var t, rest := ApplyTurn(s, Onward(s)), [];
      rest, u := ReachesWriteBranch(t, c, j);
      LeadsFirst(s, ByLoop(Onward(s)), rest, u);
      acts := [ByLoop(Onward(s))] + rest;
    }
  }

  lemma WritesOut(k: Conn)
    requires k.Ok() && Waiting(k)
    ensures HandleWrite(k, |k.out|).conn.fins == 1 && !HandleWrite(k, |k.out|).conn.sentAfterFin
  {
    WriteProgress(k, |k.out|);
  }

  /** The whole backlog is written, and the half-close goes out. */
  lemma ShutsAtLast(s: State, c: ConnId) returns (a: Action)
    requires Pending(s, c) && AtWriteBranch(s, c)
    ensures Enabled(s, a) && Inv(Apply(s, a)) && c in Apply(s, a).conns
    ensures Apply(s, a).conns[c].k.fins == 1 && !Apply(s, a).conns[c].k.sentAfterFin
    ensures Apply(s, a).sending == s.sending && Sends(Apply(s, a).Work(), c) == Sends(s.Work(), c)
  {
    PendingFacts(s, c);
    WritesOut(s.conns[c].k);
    var w: int := |s.conns[c].k.out|;
    a := ByLoop(OnWrite(w));
    StepKeepsInv(s, a);
    StepOnWork(s, a);
    TurnTouches(s, OnWrite(w));
    TurnSendingSame(s, OnWrite(w));
    CompletionIsNoSend(s.Work(), c, c, WriteBranch(Handled(s), s.active[s.at].revents, w).completes);
  }

  lemma CompletionIsNoSend(work: seq<Functor>, c: ConnId, d: ConnId, completes: bool)
    ensures Sends(Grown(work, Completing(d, completes)), c) == Sends(work, c)
  {
    if completes {
      SendsSnoc(work, WriteComplete(d), c);
    }
  }

  /** From an event that writes, the half-close comes before anything that is on its way. */
  lemma WriteShutsFirst(s: State, c: ConnId, j: nat) returns (acts: seq<Action>, u: State)
    requires Pending(s, c) && WritesAt(s, c, j) && !Silent(s, c)
    ensures Leads(s, acts, u) && TooLate(u, c)
  {
    var first, mid := ReachesWriteBranch(s, c, j);
    var a := ShutsAtLast(mid, c);
    u := Apply(mid, a);
    LeadsOne(mid, a);
    LeadsOn(s, first, mid, [a], u);
    acts := first + [a];
  }

  /** The half-close has gone out, and something is on its way. */
  ghost predicate TooLate(s: State, c: ConnId) {
    Inv(s) && c in s.conns && 0 < s.conns[c].k.fins && !s.conns[c].k.sentAfterFin && !Silent(s, c)
  }

  /** So it does from the poll on. */
  lemma PollShutsFirst(s: State, c: ConnId) returns (acts: seq<Action>, u: State)
    requires Pending(s, c) && s.loop.pc == L.Polling && !Silent(s, c)
    ensures Leads(s, acts, u) && TooLate(u, c)
  {
    PollReportsRoom(s, c);
    var rest;
    rest, u := WriteShutsFirst(ApplyTurn(s, Room(c)), c, 0);
    LeadsFirst(s, ByLoop(Room(c)), rest, u);
    acts := [ByLoop(Room(c))] + rest;
  }

  /** At the poll what is queued is what is pending. */
  lemma AtPollAllPends(s: State, c: ConnId)
    requires Inv(s) && s.loop.pc == L.Polling
    ensures Sends(s.Work(), c) == [] <==> NoneWaiting(s.loop, c)
  {
    DispatchFlags(s);
    assert s.loop.Queue() == s.loop.pending;
    NothingAdded(L.Functors(s.loop.pending));
  }

  /** A connection that waits to be shut, whose sends are not in time, can be shut too early. */
  lemma NotInTimeIsTooLate(s: State, c: ConnId) returns (acts: seq<Action>, u: State)
    requires Pending(s, c) && (s.loop.pc == L.Calling || s.loop.pc == L.Dispatching) && !InTime(s, c)
    ensures Leads(s, acts, u) && TooLate(u, c)
  {
    if NotSending(s.sending, c) && s.loop.pc == L.Dispatching {
      var j: nat :| EventAhead(s, c, j) && !Hangs(s, j) && s.active[j].revents.out;
      acts, u := WriteShutsFirst(s, c, j);
    } else {
      var first, mid := ReachesPoll(s, c);
      AtPollAllPends(mid, c);
      var rest;
      rest, u := PollShutsFirst(mid, c);
      LeadsOn(s, first, mid, rest, u);
      acts := first + rest;
    }
  }

  // ------------------------------------------------------------ the exact condition at the call

  lemma ShutdownKeepsPlace(s: State, c: ConnId)
    requires InUserCode(s) && c in s.conns
    ensures var t := Apply(s, ByUser(OwnShutdown(c)));
            && t.loop == s.loop && t.sending == s.sending && t.body == s.body && SamePlace(t, s)
            && c in t.conns && t.conns[c].k == Shutdown(s.conns[c].k)
  {
  }

  lemma ShutdownWaits(k: Conn)
    requires k.Ok() && k.state == Connected && k.out != []
    ensures Waiting(Shutdown(k)) && Shutdown(k).out == k.out
  {
  }

  lemma ShutdownKeepsInTime(s: State, c: ConnId)
    requires InUserCode(s) && c in s.conns && s.conns[c].k.out != [] && Shutdown(s.conns[c].k).out != []
    ensures var t := Apply(s, ByUser(OwnShutdown(c)));
            c in t.conns && (InTime(t, c) <==> InTime(s, c))
  {
    ShutdownKeepsPlace(s, c);
    SamePlaceSameAhead(Apply(s, ByUser(OwnShutdown(c))), s, c);
    ShutdownStep(s, c);
  }

  lemma InTimeIsGraceful(s: State, c: ConnId)
    requires Pending(s, c) && (s.loop.pc == L.Calling || s.loop.pc == L.Dispatching) && InTime(s, c)
    ensures Graceful(s, c)
  {
    NotYetSentNothing(s, c);
  }

  /**
   * Nothing can be written after the half-close that a call of shutdown brings
   * about if and only if what is on its way at the call is in time: without a
   * backlog nothing may be on its way; with one, either the dispatch that is going
   * on will close the connection, or no thread is inside a send on it and no send
   * waits for a batch that comes after the next chance to write.
   */
  lemma ShutdownIsGracefulExactly(s: State, c: ConnId)
    requires Reachable(s) && InUserCode(s) && c in s.conns && s.conns[c].k.state == Connected
    ensures NeverWritesAfterFin(Apply(s, ByUser(OwnShutdown(c))), c) <==> InTime(s, c)
  {
    var t := Apply(s, ByUser(OwnShutdown(c)));
    if s.conns[c].k.out == [] {
      ShutdownIsFinalExactly(s, c);
    } else {
      ReachableIsOk(s, c);
      ShutdownWaits(s.conns[c].k);
      ShutdownKeepsPlace(s, c);
      ShutdownKeepsInTime(s, c);
      ReachableStep(s, ByUser(OwnShutdown(c)));
      ReachableIsInv(t);
      WaitingIsGracefulExactly(t, c);
    }
  }

  /** The same of a connection that waits to be shut. */
  lemma WaitingIsGracefulExactly(s: State, c: ConnId)
    requires Reachable(s) && Pending(s, c) && (s.loop.pc == L.Calling || s.loop.pc == L.Dispatching)
    ensures NeverWritesAfterFin(s, c) <==> InTime(s, c)
  {
    if InTime(s, c) {
      InTimeIsGraceful(s, c);
      forall acts: seq<Action> | Legal(s, acts)
        ensures c in Run(s, acts).conns && !Run(s, acts).conns[c].k.wroteAfterFin
      {
        RunStaysGraceful(s, acts, c);
        GracefulWritesNothing(Run(s, acts), c);
      }
    } else {
      var first, mid := NotInTimeIsTooLate(s, c);
      ReachableRun(s, first);
      HalfCloseIsFinalExactly(mid, c);
      SomeRunWrites(s, first, mid, c);
    }
  }

  lemma SomeRunWrites(s: State, first: seq<Action>, mid: State, c: ConnId)
    requires Leads(s, first, mid) && !NeverWritesAfterFin(mid, c)
    ensures !NeverWritesAfterFin(s, c)
  {
    var more: seq<Action> :| Legal(mid, more)
      && !(c in Run(mid, more).conns && !Run(mid, more).conns[c].k.wroteAfterFin);
    LeadsOn(s, first, mid, more, Run(mid, more));
    assert Legal(s, first + more);
  }
}
