/**
 * What a send that comes too late can do to a closed connection, and when none
 * can do any harm: a message without bytes does none.
 */
module ReactorClosing {
  import opened Basics
  import opened Connection
  import opened Reactor
  import opened ReactorFinality
  import opened ReactorInvariant
  import opened ReactorProgress
  import opened ReactorSteps
  import opened ReactorTheorems
  import R = Registration
  import L = LoopProtocol

  /** A send of at least one byte to `c`. */
  predicate Carries(f: Functor, c: ConnId) {
    f.SendLater? && f.conn == c && f.msg.bytes != []
  }

  /** Every queued send to `c` is of an empty message. */
  predicate NoBytesQueued(work: seq<Functor>, c: ConnId) {
    Size(Sends(work, c)) == 0
  }

  /** No other thread is inside a send of bytes on `c`. */
  ghost predicate NoBytesBegun(s: State, c: ConnId) {
    forall t <- s.sending :: !Carries(Begun(s, t), c)
  }

  /** No byte is on its way to `c`. */
  ghost predicate Harmless(s: State, c: ConnId) {
    NoBytesBegun(s, c) && s.loop.next <= |s.loop.batch| && NoBytesQueued(s.Work(), c)
  }

  // ------------------------------------------------------------ nothing happens without bytes

  /** Closed once, without a trace of its handler in the kernel's set. */
  ghost predicate ClosedOnce(k: Conn) {
    k.state == Disconnected && k.reg.state != R.Added && k.closes <= 1 && !k.badAssert
  }

  /** A handler that is not in the kernel's set waits for nothing. */
  lemma ClosedIsDeaf(k: Conn)
    requires k.Ok() && ClosedOnce(k)
    ensures !k.reg.IsWriting() && k.reg.kernel.None?
  {
  }

  lemma EmptySendDoesNothing(k: Conn, m: Msg, w: int)
    requires k.Ok() && ClosedOnce(k) && m.bytes == [] && -1 <= w <= 0
    ensures ClosedOnce(SendInLoop(k, m, w).conn)
  {
  }

  ghost predicate TouchStaysClosed(s: State, touch: Touch, c: ConnId) {
    touch.Touched? && touch.c == c && c in s.conns ==> ClosedOnce(touch.e.k)
  }

  ghost predicate WasClosed(s: State, c: ConnId) {
    c in s.conns && s.conns[c].k.Ok() && ClosedOnce(s.conns[c].k)
  }

  lemma OtherStaysClosed(s: State, a: Foreign, c: ConnId)
    requires EnabledOther(s, a) && WasClosed(s, c)
    ensures TouchStaysClosed(s, OtherTouch(s, a), c)
  {
  }

  lemma OwnStaysClosed(s: State, a: Own, c: ConnId)
    requires EnabledOwn(s, a) && WasClosed(s, c)
    ensures TouchStaysClosed(s, OwnTouch(s, a), c)
  {
  }

  /** Its handler is run only as the rest of the event that closed it, and closes it no more. */
  lemma BranchStaysClosed(s: State, a: Turn, c: ConnId)
    requires EnabledTurn(s, a) && (a.OnHup? || a.OnRead? || a.OnWrite?) && DispatchOk(s) && WasClosed(s, c)
    ensures TouchStaysClosed(s, TurnTouch(s, a), c)
  {
    if s.active[s.at].conn == c {
      ClosedIsDeaf(s.conns[c].k);
      assert s.active[s.at] == Event(c, s.active[s.at].revents);
    }
  }

  lemma EffectStaysClosed(e: Entry, f: Functor, w: int)
    requires e.k.Ok() && ClosedOnce(e.k) && Due(e, f) && (f.SendLater? ==> f.msg.bytes == [] && -1 <= w <= 0)
    ensures ClosedOnce(Effect(e, f, w).k)
  {
    match f
    case SendLater(_, m) => EmptySendDoesNothing(e.k, m, w);
    case Destroyed(_) => R.TeardownFromAnyState(e.k.reg);
    case _ =>
  }

  lemma BodyStaysClosed(s: State, w: int, c: ConnId, work: seq<Functor>)
    requires EnabledTurn(s, Body(w)) && Running(s, Body(w), work)
    requires WasClosed(s, c) && QueueOk(c, s.conns[c], work) && NoBytesQueued(work, c)
    ensures TouchStaysClosed(s, TurnTouch(s, Body(w)), c)
  {
    var f, e := s.body.value, s.conns[c];
    if HasEffect(f) && f.conn == c {
      EffectKeepsPlace(c, e, f, w, work);
      HeadHasNoBytes(work, c);
      EffectStaysClosed(e, f, w);
    }
  }

  lemma HeadHasNoBytes(work: seq<Functor>, c: ConnId)
    requires work != []
    ensures Size(Sends(work, c)) == Size(Sends(work[1..], c)) + if Carries(work[0], c) then |work[0].msg.bytes| else 0
  {
    if work[0].SendLater? && work[0].conn == c {
      ByCons(OWNER, work[0].msg, Sends(work[1..], c));
    } else {
      NothingAdded(Sends(work[1..], c));
    }
  }

  lemma StepTouchStaysClosed(s: State, a: Action, c: ConnId, work: seq<Functor>)
    requires Enabled(s, a) && StepRuns(s, a, work) && DispatchOk(s)
    requires WasClosed(s, c) && QueueOk(c, s.conns[c], work) && NoBytesQueued(work, c)
    ensures TouchStaysClosed(s, StepTouch(s, a), c)
  {
    match a
    case ByOther(other) => OtherStaysClosed(s, other, c);
    case ByUser(own) => OwnStaysClosed(s, own, c);
    case ByLoop(turn) =>
      match turn {
        case OnHup => BranchStaysClosed(s, turn, c);
        case OnRead(_) => BranchStaysClosed(s, turn, c);
        case OnWrite(_) => BranchStaysClosed(s, turn, c);
        case Body(w) => BodyStaysClosed(s, w, c, work);
        case _ =>
      }
  }

  lemma StepStaysClosed(s: State, a: Action, c: ConnId)
    requires Inv(s) && Enabled(s, a) && c in s.conns && ClosedOnce(s.conns[c].k) && NoBytesQueued(s.Work(), c)
    ensures c in Apply(s, a).conns && ClosedOnce(Apply(s, a).conns[c].k)
  {
    OkIn(s, c);
    RunsHeadOfWork(s, a);
    StepTouchStaysClosed(s, a, c, s.Work());
    StepTouches(s, a);
    PutStaysClosed(s, StepTouch(s, a), c);
  }

  lemma PutStaysClosed(s: State, touch: Touch, c: ConnId)
    requires c in s.conns && ClosedOnce(s.conns[c].k) && TouchStaysClosed(s, touch, c)
    ensures c in Put(s.conns, touch) && ClosedOnce(Put(s.conns, touch)[c].k)
  {
  }

  // ------------------------------------------------------------ and no bytes come

  predicate PushCarries(act: Option<L.Act<Functor>>, c: ConnId) {
    match act
    case Some(ForeignPush(_, f)) => Carries(f, c)
    case Some(OwnPush(f)) => Carries(f, c)
    case _ => false
  }

  lemma StepPushesNoBytes(s: State, a: Action, c: ConnId)
    requires Enabled(s, a) && NoBytesBegun(s, c)
    ensures !PushCarries(LoopAct(s, a), c)
  {
    match a
    case ByOther(other) =>
      if other.SendQueues? {
        assert !Carries(Begun(s, other.t), c);
      }
    case ByUser(own) =>
    case ByLoop(turn) =>
  }

  lemma GrownWithoutBytes(work: seq<Functor>, act: Option<L.Act<Functor>>, c: ConnId)
    requires NoBytesQueued(work, c) && !PushCarries(act, c)
    ensures NoBytesQueued(Grown(work, act), c)
  {
    match act
    case Some(ForeignPush(_, f)) => SnocWithoutBytes(work, f, c);
    case Some(OwnPush(f)) => SnocWithoutBytes(work, f, c);
    case _ =>
  }

  lemma SnocWithoutBytes(work: seq<Functor>, f: Functor, c: ConnId)
    requires !Carries(f, c)
    ensures Size(Sends(work + [f], c)) == Size(Sends(work, c))
  {
    SendsSnoc(work, f, c);
    if f.SendLater? && f.conn == c {
      SizeSnoc(Sends(work, c), f.msg);
    }
  }

  lemma OtherBeginsNoBytes(s: State, a: Foreign, c: ConnId)
    requires EnabledOther(s, a) && NoBytesBegun(s, c) && c in s.conns && Refusing(s.conns[c].k)
    ensures NoBytesBegun(ApplyOther(s, a), c)
  {
    var u := ApplyOther(s, a);
    forall t | t in u.sending ensures !Carries(Begun(u, t), c) {
      if t in s.sending {
        assert !Carries(Begun(s, t), c);
      }
    }
  }

  lemma SameBegun(s: State, u: State, c: ConnId)
    requires NoBytesBegun(s, c) && u.sending == s.sending
    ensures NoBytesBegun(u, c)
  {
    forall t | t in u.sending ensures !Carries(Begun(u, t), c) {
      assert !Carries(Begun(s, t), c);
    }
  }

  lemma StepBeginsNoBytes(s: State, a: Action, c: ConnId)
    requires Enabled(s, a) && NoBytesBegun(s, c) && c in s.conns && Refusing(s.conns[c].k)
    ensures NoBytesBegun(Apply(s, a), c)
  {
    match a
    case ByOther(other) => OtherBeginsNoBytes(s, other, c);
    case ByUser(own) =>
      OwnSendingSame(s, own);
      SameBegun(s, ApplyOwn(s, own), c);
    case ByLoop(turn) =>
      TurnSendingSame(s, turn);
      SameBegun(s, ApplyTurn(s, turn), c);
  }

  lemma StepStaysHarmless(s: State, a: Action, c: ConnId)
    requires LoopOk(s) && Enabled(s, a) && Harmless(s, c) && c in s.conns && Refusing(s.conns[c].k)
    ensures Harmless(Apply(s, a), c)
  {
    StepOnWork(s, a);
    StepPushesNoBytes(s, a, c);
    if s.Work() != [] {
      HeadHasNoBytes(s.Work(), c);
    }
    GrownWithoutBytes(Remaining(a, s.Work()), LoopAct(s, a), c);
    StepBeginsNoBytes(s, a, c);
  }

  lemma {:induction false} RunStaysClosed(s: State, acts: seq<Action>, c: ConnId)
    requires Inv(s) && Legal(s, acts) && Harmless(s, c) && c in s.conns && ClosedOnce(s.conns[c].k)
    ensures c in Run(s, acts).conns && ClosedOnce(Run(s, acts).conns[c].k) && Inv(Run(s, acts))
    decreases |acts|
  {
    if acts != [] {
      StepStaysHarmless(s, acts[0], c);
      StepStaysClosed(s, acts[0], c);
      StepKeepsInv(s, acts[0]);
      RunStaysClosed(Apply(s, acts[0]), acts[1..], c);
    }
  }

  // ------------------------------------------------------------ but with bytes it is registered again

  lemma LateBytesRegister(k: Conn, m: Msg)
    requires k.Ok() && m.bytes != []
    ensures SendInLoop(k, m, -1).conn.reg.kernel.Some?
  {
    if !k.reg.IsWriting() {
      R.UpdateAgrees(k.reg, k.reg.events.Or(R.WRITE_EVENT));
      R.UpdateIsKnown(k.reg, k.reg.events.Or(R.WRITE_EVENT));
    }
  }

  /** The send whose functor is called takes effect. */
  lemma BodyRegisters(s: State, c: ConnId)
    requires EnabledTurn(s, Body(-1)) && Carries(s.body.value, c) && c in s.conns && s.conns[c].k.Ok()
    ensures c in ApplyTurn(s, Body(-1)).conns && ApplyTurn(s, Body(-1)).conns[c].k.reg.kernel.Some?
  {
    LateBytesRegister(s.conns[c].k, s.body.value.msg);
    TurnTouches(s, Body(-1));
  }

  /** Bytes are queued for `c`. */
  ghost predicate Laden(s: State, c: ConnId) {
    Inv(s) && c in s.conns && !NoBytesQueued(s.Work(), c)
  }

  /** They are about to be sent. */
  predicate SendsBytes(s: State, c: ConnId) {
    s.loop.pc == L.Calling && !s.loop.selfOwes && s.body.Some? && Carries(s.body.value, c)
  }

  ghost predicate Sooner(t: State, s: State)
    requires Inv(s) && Inv(t)
  {
    |t.Work()| < |s.Work()| || (|t.Work()| == |s.Work()| && Closer(t, s))
  }

  /** Otherwise they are nearer to it. */
  lemma BytesComeNearer(s: State, c: ConnId)
    requires Laden(s, c) && !SendsBytes(s, c)
    ensures EnabledTurn(s, Onward(s)) && Laden(ApplyTurn(s, Onward(s)), c)
    ensures Sooner(ApplyTurn(s, Onward(s)), s)
  {
    OnwardOnWork(s);
    if Onward(s).Body? {
      HeadHasNoBytes(s.Work(), c);
    } else {
      OnwardGetsCloser(s);
    }
    StepFollows(s, ByLoop(Onward(s)), c);
  }

  lemma {:induction false} QueuedBytesRegister(s: State, c: ConnId) returns (acts: seq<Action>, u: State)
    requires Laden(s, c)
    ensures Leads(s, acts, u) && c in u.conns && u.conns[c].k.reg.kernel.Some?
    decreases |s.Work()|, Phase(s), Ahead(s)
  {
    if SendsBytes(s, c) {
      OkIn(s, c);
      BodyRegisters(s, c);
      acts, u := [ByLoop(Body(-1))], ApplyTurn(s, Body(-1));
      LeadsOne(s, ByLoop(Body(-1)));
    } else {
      var rest;
      BytesComeNearer(s, c);
      rest, u := QueuedBytesRegister(ApplyTurn(s, Onward(s)), c);
      LeadsFirst(s, ByLoop(Onward(s)), rest, u);
      acts := [ByLoop(Onward(s))] + rest;
    }
  }

  lemma SomeBytesRegister(s: State, c: ConnId) returns (acts: seq<Action>, u: State)
    requires Inv(s) && c in s.conns && !Harmless(s, c)
    ensures Leads(s, acts, u) && c in u.conns && u.conns[c].k.reg.kernel.Some?
  {
    if !NoBytesQueued(s.Work(), c) {
      acts, u := QueuedBytesRegister(s, c);
    } else {
      var t :| t in s.sending && Carries(Begun(s, t), c);
      acts, u := BegunBytesRegister(s, c, t);
    }
  }

  lemma BegunBytesRegister(s: State, c: ConnId, t: Tid) returns (acts: seq<Action>, u: State)
    requires Inv(s) && c in s.conns && t in s.sending && Carries(Begun(s, t), c)
    ensures Leads(s, acts, u) && c in u.conns && u.conns[c].k.reg.kernel.Some?
  {
    var queues, mid := SenderFinishes(s, t);
    RunFollows(s, queues, c);
    var rest;
    rest, u := QueuedBytesRegister(mid, c);
    LeadsOn(s, queues, mid, rest, u);
    acts := queues + rest;
  }

  /** In every run from here the connection stays closed for good. */
  ghost predicate StaysClosedForGood(s: State, c: ConnId) {
    forall acts: seq<Action> | Legal(s, acts) ::
      c in Run(s, acts).conns && ClosedForGood(Run(s, acts).conns[c].k)
  }

  /**
   * A close stays the only one, with at most one teardown, no failing assert and
   * nothing in the kernel's set, if and only if no byte is on its way: every send
   * that another thread is inside, and every queued one, is of an empty message.
   */
  lemma ClosedForGoodExactly(s: State, c: ConnId)
    requires Reachable(s) && c in s.conns && s.conns[c].k.state == Disconnected && !s.conns[c].k.lateSend
    ensures StaysClosedForGood(s, c) <==> Harmless(s, c)
  {
    ReachableIsInv(s);
    ReachableIsOk(s, c);
    if Harmless(s, c) {
      forall acts: seq<Action> | Legal(s, acts)
        ensures c in Run(s, acts).conns && ClosedForGood(Run(s, acts).conns[c].k)
      {
        RunStaysClosed(s, acts, c);
        OnceIsForGood(Run(s, acts), c);
      }
    } else {
      var acts, u := SomeBytesRegister(s, c);
      assert Legal(s, acts) && !ClosedForGood(Run(s, acts).conns[c].k);
    }
  }

  lemma OnceIsForGood(s: State, c: ConnId)
    requires Inv(s) && c in s.conns && ClosedOnce(s.conns[c].k)
    ensures ClosedForGood(s.conns[c].k)
  {
    assert s.conns[c].k.Ok() && QueueOk(c, s.conns[c], s.Work());
  }
}
