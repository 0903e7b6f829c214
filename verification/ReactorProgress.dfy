/**
 * Where the reactor can go from a state it has reached: what every step keeps of
 * a connection's past, and that the loop thread alone can always finish what is queued.
 */
module ReactorProgress {
  import opened Basics
  import opened Connection
  import opened Reactor
  import opened ReactorInvariant
  import opened ReactorSteps
  import L = LoopProtocol

  // ------------------------------------------------------------ nothing is undone

  /**
   * `k` is a later moment of `was`: nothing that happened is taken back, and the
   * two flags of belated sends are raised by a belated send and by nothing else.
   */
  ghost predicate Follows(k: Conn, was: Conn) {
    && was.ran <= k.ran && was.fins <= k.fins
    && (was.state == Disconnected ==> k.state == Disconnected)
    && (was.state == Disconnecting ==> k.state == Disconnecting || k.state == Disconnected)
    && (was.sentAfterFin ==> k.sentAfterFin) && (was.lateSend ==> k.lateSend)
    && (k.ran == was.ran ==> k.sentAfterFin == was.sentAfterFin && k.lateSend == was.lateSend)
    && (k.ran != was.ran && 0 < was.fins ==> k.sentAfterFin)
    && (k.ran != was.ran && was.state == Disconnected ==> k.lateSend)
  }

  lemma FollowsTransitive(k: Conn, mid: Conn, was: Conn)
    requires Follows(k, mid) && Follows(mid, was)
    ensures Follows(k, was)
  {
  }

  lemma SendFollows(k: Conn, m: Msg, w: int)
    requires -1 <= w <= |m.bytes|
    ensures Follows(SendInLoop(k, m, w).conn, k)
  {
  }

  lemma HandleWriteFollows(k: Conn, w: int)
    requires -1 <= w <= |k.out|
    ensures Follows(HandleWrite(k, w).conn, k)
  {
    if k.reg.IsWriting() && w > 0 && w == |k.out| {
      DrainedFollows(AfterWrite(k, w));
    }
  }

  lemma DrainedFollows(k: Conn)
    ensures Follows(WithoutBacklog(k), k)
  {
  }

  lemma EffectFollows(e: Entry, f: Functor, w: int)
    requires Due(e, f) && (f.SendLater? ==> -1 <= w <= |f.msg.bytes|)
    ensures Follows(Effect(e, f, w).k, e.k)
  {
    if f.SendLater? {
      SendFollows(e.k, f.msg, w);
    }
  }

  /** The same for a connection and the messages accepted for it. */
  ghost predicate EntryFollows(e: Entry, was: Entry) {
    Follows(e.k, was.k) && was.accepted <= e.accepted
  }

  ghost predicate TouchFollows(s: State, touch: Touch) {
    touch.Touched? && touch.c in s.conns ==> EntryFollows(touch.e, s.conns[touch.c])
  }

  lemma OtherFollows(s: State, a: Foreign)
    requires EnabledOther(s, a)
    ensures TouchFollows(s, OtherTouch(s, a))
  {
  }

  lemma OwnFollows(s: State, a: Own)
    requires EnabledOwn(s, a)
    ensures TouchFollows(s, OwnTouch(s, a))
  {
    if a.OwnSend? {
      SendFollows(s.conns[a.c].k, Msg(OWNER, a.bytes), a.w);
    }
  }

  lemma BranchFollows(s: State, a: Turn)
    requires EnabledTurn(s, a) && (a.OnHup? || a.OnRead? || a.OnWrite?)
    ensures TouchFollows(s, TurnTouch(s, a))
  {
    if a.OnWrite? {
      HandleWriteFollows(Handled(s), a.w);
    }
  }

  lemma BodyFollows(s: State, w: int, work: seq<Functor>)
    requires EnabledTurn(s, Body(w)) && Running(s, Body(w), work) && EntriesOk(s.conns, work)
    ensures TouchFollows(s, TurnTouch(s, Body(w)))
  {
    var f := s.body.value;
    if HasEffect(f) && f.conn in s.conns {
      assert s.conns[f.conn].k.Ok();
      EffectKeepsPlace(f.conn, s.conns[f.conn], f, w, work);
      EffectFollows(s.conns[f.conn], f, w);
    }
  }

  lemma StepTouchFollows(s: State, a: Action, work: seq<Functor>)
    requires Enabled(s, a) && StepRuns(s, a, work) && EntriesOk(s.conns, work)
    ensures TouchFollows(s, StepTouch(s, a))
  {
    match a
    case ByOther(other) => OtherFollows(s, other);
    case ByUser(own) => OwnFollows(s, own);
    case ByLoop(turn) =>
      match turn {
        case OnHup => BranchFollows(s, turn);
        case OnRead(_) => BranchFollows(s, turn);
        case OnWrite(_) => BranchFollows(s, turn);
        case Body(w) => BodyFollows(s, w, work);
        case _ =>
      }
  }

  lemma StepFollows(s: State, a: Action, c: ConnId)
    requires Inv(s) && Enabled(s, a) && c in s.conns
    ensures c in Apply(s, a).conns && EntryFollows(Apply(s, a).conns[c], s.conns[c])
  {
    RunsHeadOfWork(s, a);
    StepTouchFollows(s, a, s.Work());
    StepTouches(s, a);
    PutFollows(s, StepTouch(s, a), c);
  }

  lemma RunsHeadOfWork(s: State, a: Action)
    requires LoopOk(s) && Enabled(s, a)
    ensures StepRuns(s, a, s.Work())
  {
    StepOnWork(s, a);
  }

  lemma PutFollows(s: State, touch: Touch, c: ConnId)
    requires TouchFollows(s, touch) && c in s.conns
    ensures c in Put(s.conns, touch) && EntryFollows(Put(s.conns, touch)[c], s.conns[c])
  {
  }

  lemma {:induction false} RunFollows(s: State, acts: seq<Action>, c: ConnId)
    requires Inv(s) && Legal(s, acts) && c in s.conns
    ensures Inv(Run(s, acts)) && c in Run(s, acts).conns
    ensures EntryFollows(Run(s, acts).conns[c], s.conns[c])
    decreases |acts|
  {
    if acts != [] {
      var t := Apply(s, acts[0]);
      StepKeepsInv(s, acts[0]);
      StepFollows(s, acts[0], c);
      RunFollows(t, acts[1..], c);
      FollowsTransitive(Run(t, acts[1..]).conns[c].k, t.conns[c].k, s.conns[c].k);
    }
  }

  // ------------------------------------------------------------ the loop thread goes on

  /** A step the loop thread can take: nothing is ready but what is, no read closes and no write moves a byte. */
  function Onward(s: State): Turn {
    match s.loop.pc
    case Outside => Enters
    case Testing => Tests
    case Polling => Polls([])
    case Dispatching =>
      if |s.active| <= s.at then EndsDispatch
      else if s.active[s.at] == Wakeup then ReadsWakeup
      else (match s.stage case AtHup => OnHup case AtRead => OnRead(1) case AtWrite => OnWrite(-1))
    case Dispatched => BeginsBatch
    case Swapping => Swaps
    case Between => if s.loop.next < |s.loop.batch| then Calls else EndsBatch
    case Calling => if s.loop.selfOwes then OwnWakes else if s.body.Some? then Body(-1) else Returns
  }

  /** The loop thread is never stuck. */
  lemma LoopCanAlwaysMove(s: State)
    requires Inv(s)
    ensures EnabledTurn(s, Onward(s))
  {
    if s.loop.pc == L.Dispatching {
      HandlerCanAlwaysRun(s);
    }
  }

  lemma HandlerCanAlwaysRun(s: State)
    requires DispatchOk(s) && s.loop.pc == L.Dispatching && !s.loop.selfOwes
    ensures EnabledTurn(s, Onward(s))
  {
    if s.at < |s.active| && s.active[s.at].Event? {
      assert s.active[s.at] == Event(s.active[s.at].conn, s.active[s.at].revents);
    }
  }

  /** How far the loop thread is from the next functor's effect: stretch by stretch of loop() ... */
  function Phase(s: State): nat {
    match s.loop.pc
    case Calling => if s.loop.selfOwes then 14 else if s.body.Some? then 3 else 13
    case Between => if s.loop.next < |s.loop.batch| then 4 else 12
    case Testing => if s.loop.quit then 11 else 9
    case Outside => 10
    case Polling => 8
    case Dispatching => 7
    case Dispatched => 6
    case Swapping => 5
  }

  /** ... and handler by handler within a dispatch. */
  function Ahead(s: State): nat {
    if s.loop.pc != L.Dispatching || |s.active| <= s.at then 0
    else 3 * (|s.active| - s.at) - (match s.stage case AtHup => 0 case AtRead => 1 case AtWrite => 2)
  }

  ghost predicate Closer(t: State, s: State) {
    Phase(t) < Phase(s) || (Phase(t) == Phase(s) && Ahead(t) < Ahead(s))
  }

  /** A step of the loop that queues nothing and is no other thread's. */
  predicate Calm(act: L.Act<Functor>) {
    !(act.ForeignPush? || act.ForeignQuit? || act.ForeignWake? || act.OwnPush? || act.OwnQuit?)
  }

  lemma OnwardIsCalm(s: State)
    requires EnabledTurn(s, Onward(s))
    ensures TurnAct(s, Onward(s)).Some? ==> Calm(TurnAct(s, Onward(s)).value)
  {
    match Onward(s)
    case OnWrite(_) =>
    case Body(_) =>
    case _ =>
  }

  lemma OnwardQueuesNothing(s: State, work: seq<Functor>)
    requires EnabledTurn(s, Onward(s))
    ensures Grown(work, TurnAct(s, Onward(s))) == work
  {
    OnwardIsCalm(s);
  }

  lemma DispatchGetsCloser(s: State)
    requires EnabledTurn(s, Onward(s)) && s.loop.pc == L.Dispatching && DispatchOk(s)
    ensures Closer(ApplyTurn(s, Onward(s)), s)
  {
    if s.at < |s.active| {
      DispatchStaysInDispatch(s);
    }
  }

  lemma DispatchStaysInDispatch(s: State)
    requires EnabledTurn(s, Onward(s)) && s.loop.pc == L.Dispatching && s.at < |s.active|
    ensures var t := ApplyTurn(s, Onward(s));
            && t.loop.pc == L.Dispatching && t.active == s.active
            && (s.active[s.at] == Wakeup ==> t.at == s.at + 1 && t.stage == s.stage)
            && (s.active[s.at] != Wakeup ==>
                  match s.stage
                  case AtHup => t.at == s.at && t.stage == AtRead
                  case AtRead => t.at == s.at && t.stage == AtWrite
                  case AtWrite => t.at == s.at + 1 && t.stage == AtHup)
  {
  }

  lemma ElsewhereGetsCloser(s: State)
    requires EnabledTurn(s, Onward(s)) && s.loop.pc != L.Dispatching && !Onward(s).Body?
    requires s.loop.pc == L.Between ==> !s.loop.selfOwes
    requires s.loop.pc == L.Swapping ==> s.loop.pending != []
    ensures Phase(ApplyTurn(s, Onward(s))) < Phase(s)
  {
    if s.loop.pc == L.Between || s.loop.pc == L.Calling {
      BatchGetsCloser(s);
    }
  }

  lemma BatchGetsCloser(s: State)
    requires EnabledTurn(s, Onward(s)) && (s.loop.pc == L.Between || s.loop.pc == L.Calling)
    requires s.loop.pc == L.Between ==> !s.loop.selfOwes
    requires !Onward(s).Body?
    ensures Phase(ApplyTurn(s, Onward(s))) < Phase(s)
  {
  }

  /** What is queued when a batch is about to be taken is all in the queue. */
  lemma WaitsToBeTaken(s: State)
    requires LoopOk(s) && s.Work() != []
    ensures s.loop.pc == L.Swapping ==> s.loop.pending != []
  {
    if s.loop.pc != L.Swapping {
      return;
    }
    assert s.loop.batch == [] && s.body.None?;
    assert s.loop.Queue() == s.loop.pending;
    assert s.Work() == [] + L.Functors(s.loop.pending);
  }

  /** What a step onward makes of the queue: a body takes the first functor away, and nothing is added. */
  lemma OnwardOnWork(s: State)
    requires Inv(s)
    ensures EnabledTurn(s, Onward(s)) && Inv(ApplyTurn(s, Onward(s)))
    ensures Onward(s).Body? ==> s.Work() != [] && s.body.Some? && s.Work()[0] == s.body.value
    ensures ApplyTurn(s, Onward(s)).Work() == (if Onward(s).Body? then s.Work()[1..] else s.Work())
  {
    LoopCanAlwaysMove(s);
    StepKeepsInv(s, ByLoop(Onward(s)));
    StepOnWork(s, ByLoop(Onward(s)));
    OnwardQueuesNothing(s, if Onward(s).Body? then s.Work()[1..] else s.Work());
  }

  lemma OnwardGetsCloser(s: State)
    requires Inv(s) && s.Work() != [] && EnabledTurn(s, Onward(s)) && !Onward(s).Body?
    ensures Closer(ApplyTurn(s, Onward(s)), s)
  {
    if s.loop.pc == L.Dispatching {
      DispatchGetsCloser(s);
    } else {
      WaitsToBeTaken(s);
      ElsewhereGetsCloser(s);
    }
  }

  /** Where the other threads are. */
  ghost predicate SameOthers(t: State, s: State) {
    t.sending == s.sending && t.loop.owing == s.loop.owing
  }

  lemma OnwardKeepsOthers(s: State)
    requires EnabledTurn(s, Onward(s))
    ensures SameOthers(ApplyTurn(s, Onward(s)), s)
  {
    CalmProjection(s);
    TurnSendingSame(s, Onward(s));
  }

  /** Only a wakeup that the loop thread owes itself can raise the eventfd then. */
  ghost predicate CalmStep(l: L.Loop<Functor>, m: L.Loop<Functor>) {
    m.owing == l.owing && (!l.selfOwes ==> !m.selfOwes && m.counter <= l.counter)
  }

  lemma CalmActs(l: L.Loop<Functor>, act: L.Act<Functor>)
    requires L.Enabled(l, act) && Calm(act)
    ensures CalmStep(l, L.Apply(l, act))
  {
  }

  lemma CalmProjection(s: State)
    requires EnabledTurn(s, Onward(s))
    ensures CalmStep(s.loop, ApplyTurn(s, Onward(s)).loop)
  {
    var act := TurnAct(s, Onward(s));
    TurnProjects(s, Onward(s));
    OnwardIsCalm(s);
    if act.Some? {
      CalmActs(s.loop, act.value);
    }
  }

  /** The run `acts` leads from `s` to `t`. */
  ghost predicate Leads(s: State, acts: seq<Action>, t: State) {
    Legal(s, acts) && Run(s, acts) == t
  }

  lemma LeadsNowhere(s: State)
    ensures Leads(s, [], s)
  {
  }

  lemma LeadsFirst(s: State, a: Action, rest: seq<Action>, t: State)
    requires Enabled(s, a) && Leads(Apply(s, a), rest, t)
    ensures Leads(s, [a] + rest, t)
  {
    assert ([a] + rest)[1..] == rest;
  }

  lemma LeadsOne(s: State, a: Action)
    requires Enabled(s, a)
    ensures Leads(s, [a], Apply(s, a))
  {
    LeadsNowhere(Apply(s, a));
    LeadsFirst(s, a, [], Apply(s, a));
    NothingAdded([a]);
  }

  lemma {:induction false} LeadsOn(s: State, acts: seq<Action>, t: State, more: seq<Action>, u: State)
    requires Leads(s, acts, t) && Leads(t, more, u)
    ensures Leads(s, acts + more, u)
    decreases |acts|
  {
    if acts == [] {
      NothingAdded(more);
    } else {
      DropFirst(acts, more);
      LeadsOn(Apply(s, acts[0]), acts[1..], t, more, u);
    }
  }

  /** Nothing is left to be run. */
  ghost predicate Drained(s: State) {
    Inv(s) && s.Work() == []
  }

  /** From every state that keeps the invariant, steps of the loop thread alone run everything that is queued. */
  lemma {:induction false} SomeRunEmptiesQueue(s: State) returns (acts: seq<Action>, t: State)
    requires Inv(s)
    ensures Leads(s, acts, t) && (forall a <- acts :: a.ByLoop?)
    ensures Drained(t) && SameOthers(t, s)
    decreases |s.Work()|, Phase(s), Ahead(s)
  {
    if s.Work() == [] {
      acts, t := [], s;
      LeadsNowhere(s);
    } else {
      var rest;
      OnwardOnWork(s);
      if !Onward(s).Body? {
        OnwardGetsCloser(s);
      }
      OnwardKeepsOthers(s);
      rest, t := SomeRunEmptiesQueue(ApplyTurn(s, Onward(s)));
      LeadsFirst(s, ByLoop(Onward(s)), rest, t);
      acts := [ByLoop(Onward(s))] + rest;
    }
  }

  // ------------------------------------------------------------ rest can be reached

  /** The loop thread waits for events, and nothing will come from a thread that is inside a call. */
  ghost predicate AtRest(s: State) {
    s.loop.pc == L.Polling && s.loop.counter == 0 && s.loop.owing == {} && s.sending == map[]
  }

  lemma NothingQueuedAnywhere(s: State)
    requires Drained(s)
    ensures s.body.None? && s.loop.next == |s.loop.batch| && s.loop.pending == []
    ensures s.loop.pc != L.Calling ==> !s.loop.selfOwes
  {
    assert |L.Functors(s.loop.Queue())| == |s.loop.Queue()|;
  }

  /** Between two functors the stretches count down to the poll. */
  function ToPoll(s: State): nat {
    Phase(s) + if s.loop.pc == L.Dispatching || s.loop.pc == L.Dispatched || s.loop.pc == L.Swapping then 20 else 0
  }

  lemma PollGetsCloser(s: State)
    requires EnabledTurn(s, Onward(s)) && s.loop.pc != L.Polling && s.loop.pc != L.Dispatching && !Onward(s).Body?
    requires s.loop.pc == L.Between ==> !s.loop.selfOwes
    ensures ToPoll(ApplyTurn(s, Onward(s))) < ToPoll(s)
  {
    if s.loop.pc == L.Between || s.loop.pc == L.Calling {
      BatchGetsCloser(s);
      BatchStartsNoDispatch(s);
    } else {
      LapGetsCloser(s);
    }
  }

  lemma BatchStartsNoDispatch(s: State)
    requires EnabledTurn(s, Onward(s)) && (s.loop.pc == L.Between || s.loop.pc == L.Calling) && !Onward(s).Body?
    ensures var pc := ApplyTurn(s, Onward(s)).loop.pc;
            pc == L.Between || pc == L.Calling || pc == L.Testing
  {
  }

  lemma LapGetsCloser(s: State)
    requires EnabledTurn(s, Onward(s)) && s.loop.pc != L.Polling && s.loop.pc != L.Dispatching
    requires s.loop.pc != L.Between && s.loop.pc != L.Calling
    ensures ToPoll(ApplyTurn(s, Onward(s))) < ToPoll(s)
  {
  }

  /** A step of a loop thread with nothing to run, on its way to the poll. */
  lemma IdleStep(s: State)
    requires Drained(s) && s.loop.pc != L.Polling
    ensures EnabledTurn(s, Onward(s))
    ensures var t := ApplyTurn(s, Onward(s));
            && Drained(t) && SameOthers(t, s)
            && (ToPoll(t) < ToPoll(s) || (ToPoll(t) == ToPoll(s) && Ahead(t) < Ahead(s)))
            && CalmStep(s.loop, t.loop)
  {
    OnwardOnWork(s);
    NothingQueuedAnywhere(s);
    OnwardKeepsOthers(s);
    CalmProjection(s);
    if s.loop.pc == L.Dispatching {
      DispatchGetsCloser(s);
    } else {
      PollGetsCloser(s);
    }
  }

  lemma {:induction false} SomeRunReachesPoll(s: State) returns (acts: seq<Action>, t: State)
    requires Drained(s)
    ensures Leads(s, acts, t) && Drained(t) && SameOthers(t, s)
    ensures t.loop.pc == L.Polling
    ensures !s.loop.selfOwes ==> t.loop.counter <= s.loop.counter
    decreases ToPoll(s), Ahead(s)
  {
    if s.loop.pc == L.Polling {
      acts, t := [], s;
      LeadsNowhere(s);
    } else {
      var rest;
      IdleStep(s);
      rest, t := SomeRunReachesPoll(ApplyTurn(s, Onward(s)));
      LeadsFirst(s, ByLoop(Onward(s)), rest, t);
      acts := [ByLoop(Onward(s))] + rest;
    }
  }

  /** At a poll with the eventfd readable, the wakeup handler is reported ... */
  lemma WakeupIsReported(s: State)
    requires s.loop.pc == L.Polling && 0 < s.loop.counter
    ensures EnabledTurn(s, Polls([Wakeup]))
    ensures var t := ApplyTurn(s, Polls([Wakeup]));
            && SameOthers(t, s) && t.loop.pc == L.Dispatching && t.at == 0 && t.active == [Wakeup]
            && t.loop.selfOwes == s.loop.selfOwes
  {
  }

  lemma PollKeepsWork(s: State, ready: seq<Ready>)
    requires Inv(s) && EnabledTurn(s, Polls(ready))
    ensures Inv(ApplyTurn(s, Polls(ready))) && ApplyTurn(s, Polls(ready)).Work() == s.Work()
  {
    StepKeepsInv(s, ByLoop(Polls(ready)));
    StepOnWork(s, ByLoop(Polls(ready)));
  }

  /** ... and is the next to run ... */
  lemma WakeupIsNext(s: State)
    requires s.loop.pc == L.Dispatching && s.at == 0 && s.active == [Wakeup]
    ensures Onward(s) == ReadsWakeup
  {
  }

  /** ... which makes the eventfd unreadable. */
  lemma WakeupResets(s: State)
    requires EnabledTurn(s, ReadsWakeup)
    ensures ApplyTurn(s, ReadsWakeup).loop.counter == 0
    ensures ApplyTurn(s, ReadsWakeup).loop.selfOwes == s.loop.selfOwes
  {
  }

  lemma WakeupIsRead(s: State) returns (acts: seq<Action>, t: State)
    requires Drained(s) && s.loop.pc == L.Polling && 0 < s.loop.counter
    ensures Leads(s, acts, t) && Drained(t) && SameOthers(t, s)
    ensures t.loop.counter == 0 && !t.loop.selfOwes
  {
    WakeupIsReported(s);
    PollKeepsWork(s, [Wakeup]);
    NothingQueuedAnywhere(s);
    var u := ApplyTurn(s, Polls([Wakeup]));
    WakeupIsNext(u);
    IdleStep(u);
    WakeupResets(u);
    t := ApplyTurn(u, ReadsWakeup);
    LeadsOne(u, ByLoop(ReadsWakeup));
    LeadsFirst(s, ByLoop(Polls([Wakeup])), [ByLoop(ReadsWakeup)], t);
    acts := [ByLoop(Polls([Wakeup]))] + [ByLoop(ReadsWakeup)];
  }

  lemma SomeSender<V>(m: map<Tid, V>) returns (t: Tid)
    requires m != map[]
    ensures t in m
  {
    t :| t in m;
  }

  /** Every thread that is inside a send, or owes a wakeup, can finish its call. */
  lemma {:induction false} SendersFinish(s: State) returns (acts: seq<Action>, u: State)
    requires Inv(s)
    ensures Leads(s, acts, u) && Inv(u) && u.sending == map[]
    decreases |s.sending|
  {
    if s.sending == map[] {
      acts, u := [], s;
      LeadsNowhere(s);
    } else {
      var t := SomeSender(s.sending);
      var first, mid := SenderFinishes(s, t);
      OneLess(s.sending, t);
      var rest;
      rest, u := SendersFinish(mid);
      LeadsOn(s, first, mid, rest, u);
      acts := first + rest;
    }
  }

  lemma OneLess<V>(m: map<Tid, V>, t: Tid)
    requires t in m
    ensures |m - {t}| < |m|
  {
    assert m.Keys - {t} == (m - {t}).Keys;
    assert |m.Keys - {t}| < |m.Keys|;
  }

  /** The functor of a send that another thread is inside. */
  function Begun(s: State, t: Tid): Functor
    requires t in s.sending
  {
    SendLater(s.sending[t].0, Msg(t, s.sending[t].1))
  }

  /** A thread inside a send comes to queue it. */
  lemma SenderFinishes(s: State, t: Tid) returns (acts: seq<Action>, u: State)
    requires Inv(s) && t in s.sending
    ensures Leads(s, acts, u) && Inv(u) && u.sending == s.sending - {t}
    ensures Sends(u.Work(), s.sending[t].0) != []
    ensures |s.sending[t].1| <= Size(Sends(u.Work(), s.sending[t].0))
  {
    var before, free := SenderIsFree(s, t);
    var queues := ByOther(SendQueues(t));
    SenderQueues(free, t);
    u := Apply(free, queues);
    LeadsOne(free, queues);
    LeadsOn(s, before, free, [queues], u);
    acts := before + [queues];
  }

  lemma SenderIsFree(s: State, t: Tid) returns (acts: seq<Action>, u: State)
    requires Inv(s) && t in s.sending
    ensures Leads(s, acts, u) && Inv(u) && u.sending == s.sending && t !in u.loop.owing
  {
    if t in s.loop.owing {
      acts, u := [ByOther(Wakes(t))], Apply(s, ByOther(Wakes(t)));
      StepKeepsInv(s, ByOther(Wakes(t)));
      LeadsOne(s, ByOther(Wakes(t)));
      WakeFrees(s, t);
    } else {
      acts, u := [], s;
      LeadsNowhere(s);
    }
  }

  lemma WakeFrees(s: State, t: Tid)
    requires t in s.loop.owing
    ensures EnabledOther(s, Wakes(t))
    ensures var u := ApplyOther(s, Wakes(t));
            u.sending == s.sending && u.loop.owing == s.loop.owing - {t}
  {
  }

  lemma SenderQueues(s: State, t: Tid)
    requires Inv(s) && t in s.sending && t !in s.loop.owing
    ensures EnabledOther(s, SendQueues(t))
    ensures var u := ApplyOther(s, SendQueues(t));
            && Inv(u) && u.sending == s.sending - {t}
            && Sends(u.Work(), s.sending[t].0) != []
            && |s.sending[t].1| <= Size(Sends(u.Work(), s.sending[t].0))
  {
    StepKeepsInv(s, ByOther(SendQueues(t)));
    SendIsQueued(s, t);
    QueuedIsSend(s.Work(), Begun(s, t));
  }

  lemma SendIsQueued(s: State, t: Tid)
    requires LoopOk(s) && EnabledOther(s, SendQueues(t))
    ensures var u := ApplyOther(s, SendQueues(t));
            && u.sending == s.sending - {t}
            && u.loop.next <= |u.loop.batch| && u.Work() == s.Work() + [Begun(s, t)]
  {
    StepOnWork(s, ByOther(SendQueues(t)));
  }

  lemma QueuedIsSend(work: seq<Functor>, f: Functor)
    requires f.SendLater?
    ensures Sends(work + [f], f.conn) != []
    ensures |f.msg.bytes| <= Size(Sends(work + [f], f.conn))
  {
    SendsSnoc(work, f, f.conn);
    SizeSnoc(Sends(work, f.conn), f.msg);
  }

  lemma {:induction false} WakersFinish(s: State) returns (acts: seq<Action>, u: State)
    requires Inv(s)
    ensures Leads(s, acts, u) && Inv(u) && u.loop.owing == {} && u.sending == s.sending
    decreases |s.loop.owing|
  {
    if s.loop.owing == {} {
      acts, u := [], s;
      LeadsNowhere(s);
    } else {
      var t :| t in s.loop.owing;
      var rest;
      StepKeepsInv(s, ByOther(Wakes(t)));
      WakeFrees(s, t);
      rest, u := WakersFinish(Apply(s, ByOther(Wakes(t))));
      LeadsFirst(s, ByOther(Wakes(t)), rest, u);
      acts := [ByOther(Wakes(t))] + rest;
    }
  }

  /** The queue run, and the loop thread back at its poll. */
  lemma SomeRunSettles(s: State) returns (acts: seq<Action>, u: State)
    requires Inv(s)
    ensures Leads(s, acts, u) && Drained(u) && SameOthers(u, s) && u.loop.pc == L.Polling
  {
    var runs, t := SomeRunEmptiesQueue(s);
    var polls;
    polls, u := SomeRunReachesPoll(t);
    LeadsOn(s, runs, t, polls, u);
    acts := runs + polls;
  }

  lemma SomeRunQuiets(s: State) returns (acts: seq<Action>, u: State)
    requires Drained(s) && s.loop.pc == L.Polling
    ensures Leads(s, acts, u) && Drained(u) && SameOthers(u, s)
    ensures u.loop.pc == L.Polling && u.loop.counter == 0
  {
    if s.loop.counter == 0 {
      acts, u := [], s;
      LeadsNowhere(s);
    } else {
      var drains, t := WakeupIsRead(s);
      var polls;
      polls, u := SomeRunReachesPoll(t);
      LeadsOn(s, drains, t, polls, u);
      acts := drains + polls;
    }
  }

  lemma SomeRunFinishesCalls(s: State) returns (acts: seq<Action>, u: State)
    requires Inv(s)
    ensures Leads(s, acts, u) && Inv(u) && u.sending == map[] && u.loop.owing == {}
  {
    var sends, t := SendersFinish(s);
    var wakes;
    wakes, u := WakersFinish(t);
    LeadsOn(s, sends, t, wakes, u);
    acts := sends + wakes;
  }

  /** From every state that keeps the invariant, a reactor can come to rest. */
  lemma SomeRunComesToRest(s: State) returns (acts: seq<Action>, u: State)
    requires Inv(s)
    ensures Leads(s, acts, u) && AtRest(u)
  {
    var calls, t := SomeRunFinishesCalls(s);
    var settles, v := SomeRunSettles(t);
    LeadsOn(s, calls, t, settles, v);
    var quiets;
    quiets, u := SomeRunQuiets(v);
    LeadsOn(s, calls + settles, v, quiets, u);
    acts := calls + settles + quiets;
  }
}
