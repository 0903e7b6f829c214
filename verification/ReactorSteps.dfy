/** The invariant of the reactor, and that it holds in every reachable state. */
module ReactorSteps {
  import opened Basics
  import opened Connection
  import opened Reactor
  import opened ReactorInvariant
  import R = Registration
  import L = LoopProtocol

  type Conns = map<ConnId, Entry>

  ghost predicate AllOk(conns: Conns) {
    forall c <- conns :: conns[c].k.Ok()
  }

  ghost predicate EntriesOk(conns: Conns, work: seq<Functor>) {
    AllOk(conns) && forall c <- conns :: QueueOk(c, conns[c], work)
  }

  /** Every functor of the library is about a known connection. */
  ghost predicate Known(conns: Conns, work: seq<Functor>) {
    forall f <- work :: f.User? || f.conn in conns
  }

  ghost predicate SendingOk(s: State) {
    forall t <- s.sending ::
      t != OWNER && s.sending[t].0 in s.conns && s.conns[s.sending[t].0].k.state != Connecting
  }

  /**
   * While handlers run: those still to come are distinct and registered, and the
   * current one is too, unless its own hang-up branch has just closed it.
   */
  ghost predicate DispatchOk(s: State) {
    s.loop.pc == L.Dispatching ==>
      && s.at <= |s.active|
      && (forall i, j | 0 <= i < j < |s.active| && s.active[i].Event? && s.active[j].Event? ::
            s.active[i].conn != s.active[j].conn)
      && (forall j | s.at <= j < |s.active| && s.active[j].Event? ::
            var Event(c, revents) := s.active[j];
            && c in s.conns && Sane(revents)
            && s.conns[c].k.reg.state != R.New
            && (j == s.at ==> StageOk(s.conns[c].k, revents, s.stage))
            && (j > s.at ==> s.conns[c].k.reg.state == R.Added))
      && (s.at == |s.active| || s.active[s.at] == Wakeup ==> s.stage == AtHup)
  }

  ghost predicate StageOk(k: Conn, revents: R.Mask, stage: Stage) {
    match stage
    case AtHup => k.reg.state == R.Added
    case AtRead => k.reg.state == R.Added || (revents.hup && !revents.input)
    case AtWrite => true
  }

  ghost predicate LoopOk(s: State) {
    && L.Inv(s.loop) && !s.loop.stranded
    && BodyOk(s)
  }

  ghost predicate Inv(s: State) {
    && LoopOk(s)
    && EntriesOk(s.conns, s.Work())
    && Known(s.conns, s.Work())
    && SendingOk(s)
    && DispatchOk(s)
  }

  lemma OkIn(s: State, c: ConnId)
    requires Inv(s) && c in s.conns
    ensures s.conns[c].k.Ok() && QueueOk(c, s.conns[c], s.Work())
  {
  }

  // ------------------------------------------------------------ the loop's side of a step

  /** The step of the loop alone that a step of the reactor makes, if any. */
  function LoopAct(s: State, a: Action): Option<L.Act<Functor>>
    requires Enabled(s, a)
  {
    match a
    case ByOther(other) => OtherAct(s, other)
    case ByUser(own) => OwnAct(s, own)
    case ByLoop(turn) => TurnAct(s, turn)
  }

  function OtherAct(s: State, a: Foreign): Option<L.Act<Functor>>
    requires EnabledOther(s, a)
  {
    match a
    case SendBegins(_, _, _) => None
    case SendQueues(t) => Some(L.ForeignPush(t, SendLater(s.sending[t].0, Msg(t, s.sending[t].1))))
    case Queues(t, id) => Some(L.ForeignPush(t, User(id)))
    case Quits(t) => Some(L.ForeignQuit(t))
    case Wakes(t) => Some(L.ForeignWake(t))
    case Accepts(t, c, _) => Some(L.ForeignPush(t, Established(c)))
    case Removes(t, c) => Some(L.ForeignPush(t, Destroyed(c)))
  }

  function Completing(c: ConnId, completes: bool): Option<L.Act<Functor>> {
    if completes then Some(L.OwnPush(WriteComplete(c))) else None
  }

  function OwnAct(s: State, a: Own): Option<L.Act<Functor>>
    requires EnabledOwn(s, a)
  {
    match a
    case OwnSend(c, bytes, w) => Completing(c, Send(s.conns[c].k, Msg(OWNER, bytes), w).completes)
    case OwnShutdown(_) => None
    case OwnQueues(id) => Some(L.OwnPush(User(id)))
    case OwnQuits => Some(L.OwnQuit)
    case OwnAccepts(_, _) => None
    case OwnRemoves(c) => Some(L.OwnPush(Destroyed(c)))
  }

  function TurnAct(s: State, a: Turn): Option<L.Act<Functor>>
    requires EnabledTurn(s, a)
  {
    match a
    case Enters => Some(L.Enter)
    case Tests => Some(L.Test)
    case Polls(_) => Some(L.PollReturns)
    case ReadsWakeup => Some(L.DrainWakeup)
    case OnHup => None
    case OnRead(_) => None
    case OnWrite(w) =>
      Completing(s.active[s.at].conn, WriteBranch(Handled(s), s.active[s.at].revents, w).completes)
    case EndsDispatch => Some(L.EndDispatch)
    case BeginsBatch => Some(L.BeginBatch)
    case Swaps => Some(L.Swap)
    case Calls => Some(L.Call)
    case Body(w) =>
      var f := s.body.value;
      if f.SendLater? && f.conn in s.conns then
        Completing(f.conn, SendInLoop(s.conns[f.conn].k, f.msg, w).completes)
      else None
    case Returns => Some(L.Return)
    case EndsBatch => Some(L.EndBatch)
    case OwnWakes => Some(L.OwnWake)
  }

  /** `after` is what the step makes of the loop. */
  ghost predicate Projects(l: L.Loop<Functor>, act: Option<L.Act<Functor>>, after: L.Loop<Functor>) {
    match act
    case None => after == l
    case Some(act) => L.Enabled(l, act) && after == L.Apply(l, act) && (act.OwnPush? ==> l.pc != L.Outside)
  }

  lemma OtherProjects(s: State, a: Foreign)
    requires EnabledOther(s, a)
    ensures Projects(s.loop, OtherAct(s, a), ApplyOther(s, a).loop) && ApplyOther(s, a).body == s.body
  {
  }

  lemma OwnProjects(s: State, a: Own)
    requires InUserCode(s) && EnabledOwn(s, a)
    ensures Projects(s.loop, OwnAct(s, a), ApplyOwn(s, a).loop) && ApplyOwn(s, a).body == s.body
  {
  }

  lemma TurnProjects(s: State, a: Turn)
    requires EnabledTurn(s, a)
    ensures Projects(s.loop, TurnAct(s, a), ApplyTurn(s, a).loop)
  {
    match a
    case OnWrite(w) => WriteProjects(s, w);
    case Body(w) => BodyProjects(s, w);
    case Calls => BatchTurnProjects(s, a);
    case Returns => BatchTurnProjects(s, a);
    case EndsBatch => BatchTurnProjects(s, a);
    case Swaps => BatchTurnProjects(s, a);
    case BeginsBatch => BatchTurnProjects(s, a);
    case OwnWakes => BatchTurnProjects(s, a);
    case _ => OtherTurnProjects(s, a);
  }

  predicate OfBatch(a: Turn) {
    a.BeginsBatch? || a.Swaps? || a.Calls? || a.Returns? || a.EndsBatch? || a.OwnWakes?
  }

  lemma BatchTurnProjects(s: State, a: Turn)
    requires EnabledTurn(s, a) && OfBatch(a)
    ensures Projects(s.loop, TurnAct(s, a), ApplyTurn(s, a).loop)
  {
  }

  lemma OtherTurnProjects(s: State, a: Turn)
    requires EnabledTurn(s, a) && !a.OnWrite? && !a.Body? && !OfBatch(a)
    ensures Projects(s.loop, TurnAct(s, a), ApplyTurn(s, a).loop)
  {
  }

  lemma WriteProjects(s: State, w: int)
    requires EnabledTurn(s, OnWrite(w))
    ensures Projects(s.loop, TurnAct(s, OnWrite(w)), ApplyTurn(s, OnWrite(w)).loop)
  {
  }

  lemma BodyProjects(s: State, w: int)
    requires EnabledTurn(s, Body(w))
    ensures Projects(s.loop, TurnAct(s, Body(w)), ApplyTurn(s, Body(w)).loop)
  {
  }

  lemma TurnBody(s: State, a: Turn)
    requires EnabledTurn(s, a)
    ensures ApplyTurn(s, a).body == match a
            case Calls => Some(s.loop.batch[s.loop.next].functor)
            case Body(_) => None
            case _ => s.body
  {
  }

  /** Seen from the loop, a step of the reactor is a legal step of LoopProtocol, or none at all. */
  lemma StepProjects(s: State, a: Action)
    requires Enabled(s, a)
    ensures Projects(s.loop, LoopAct(s, a), Apply(s, a).loop)
  {
    match a
    case ByOther(other) => OtherProjects(s, other);
    case ByUser(own) => OwnProjects(s, own);
    case ByLoop(turn) => TurnProjects(s, turn);
  }

  lemma ProjectionKeepsLoop(l: L.Loop<Functor>, act: Option<L.Act<Functor>>, after: L.Loop<Functor>)
    requires Projects(l, act, after) && L.Inv(l) && !l.stranded
    ensures L.Inv(after) && !after.stranded
  {
    if act.Some? {
      L.ApplyKeepsInv(l, act.value);
    }
  }

  /** A functor's body is outstanding only while the loop thread is inside it. */
  ghost predicate BodyOk(s: State) {
    s.body.Some? ==> s.loop.pc == L.Calling && !s.loop.selfOwes
  }

  lemma StepKeepsBody(s: State, a: Action)
    requires BodyOk(s) && L.FlagsOk(s.loop) && Enabled(s, a)
    ensures BodyOk(Apply(s, a))
  {
    match a
    case ByOther(other) => OtherProjects(s, other);
    case ByUser(own) => OwnProjects(s, own);
    case ByLoop(turn) =>
      TurnProjects(s, turn);
      TurnBody(s, turn);
  }

  lemma StepKeepsLoopOk(s: State, a: Action)
    requires LoopOk(s) && Enabled(s, a)
    ensures LoopOk(Apply(s, a))
  {
    StepProjects(s, a);
    ProjectionKeepsLoop(s.loop, LoopAct(s, a), Apply(s, a).loop);
    StepKeepsBody(s, a);
  }

  // ------------------------------------------------------------ the work that is queued

  /** The queue after a step of the loop has pushed what it pushes. */
  function Grown(work: seq<Functor>, act: Option<L.Act<Functor>>): seq<Functor> {
    match act
    case Some(ForeignPush(_, f)) => work + [f]
    case Some(OwnPush(f)) => work + [f]
    case _ => work
  }

  lemma FunctorsCons(jobs: seq<L.Job<Functor>>)
    requires jobs != []
    ensures L.Functors(jobs) == [jobs[0].functor] + L.Functors(jobs[1..])
  {
  }

  lemma ProjectionOnQueue(l: L.Loop<Functor>, act: Option<L.Act<Functor>>, after: L.Loop<Functor>)
    requires Projects(l, act, after) && L.FlagsOk(l)
    ensures L.FlagsOk(after)
    ensures var q, q' := L.Functors(l.Queue()), L.Functors(after.Queue());
            if act == Some(L.Act<Functor>.Call) then q == [l.batch[l.next].functor] + q' else q' == Grown(q, act)
  {
    if act.Some? {
      L.ApplyOnQueue(l, act.value);
      match act.value
      case ForeignPush(_, f) => L.FunctorsSnoc(l.Queue(), L.Job(f, l.swaps));
      case OwnPush(f) => L.FunctorsSnoc(l.Queue(), L.Job(f, l.swaps));
      case Call => FunctorsCons(l.Queue());
      case _ =>
    }
  }

  /** A step takes the first functor away if it is the effect of a body, and adds what it pushes. */
  lemma StepOnWork(s: State, a: Action)
    requires LoopOk(s) && Enabled(s, a)
    ensures Apply(s, a).loop.next <= |Apply(s, a).loop.batch|
    ensures a.ByLoop? && a.turn.Body? ==> s.Work() != [] && s.Work()[0] == s.body.value
    ensures var work := if a.ByLoop? && a.turn.Body? then s.Work()[1..] else s.Work();
            Apply(s, a).Work() == Grown(work, LoopAct(s, a))
  {
    StepProjects(s, a);
    ProjectionOnQueue(s.loop, LoopAct(s, a), Apply(s, a).loop);
    StepOnBody(s, a);
    var q, q' := L.Functors(s.loop.Queue()), L.Functors(Apply(s, a).loop.Queue());
    NothingAdded(q);
    NothingAdded(q');
    if s.body.Some? {
      GrownBehind([s.body.value], q, LoopAct(s, a));
    }
  }

  lemma GrownBehind(head: seq<Functor>, work: seq<Functor>, act: Option<L.Act<Functor>>)
    ensures Grown(head + work, act) == head + Grown(work, act)
  {
    match act
    case Some(ForeignPush(_, f)) => Regroup(head, work, [f]);
    case Some(OwnPush(f)) => Regroup(head, work, [f]);
    case _ =>
  }

  /** The functor being called: a call of the loop brings it, the effect of its body takes it away. */
  lemma StepOnBody(s: State, a: Action)
    requires BodyOk(s) && Enabled(s, a)
    ensures var t := Apply(s, a);
            if a.ByLoop? && a.turn.Body? then s.body.Some? && t.body.None? && LoopAct(s, a) != Some(L.Act<Functor>.Call)
            else if LoopAct(s, a) == Some(L.Act<Functor>.Call) then
              s.body.None? && L.Enabled(s.loop, L.Act<Functor>.Call)
              && t.body == Some(s.loop.batch[s.loop.next].functor)
            else t.body == s.body
  {
    match a
    case ByOther(other) => OtherProjects(s, other);
    case ByUser(own) => OwnProjects(s, own);
    case ByLoop(turn) => TurnBody(s, turn);
  }

  // ------------------------------------------------------------ the connection that a step is about

  /** The one connection a step changes, if any, and its entry afterwards. */
  datatype Touch = Nothing | Touched(c: ConnId, e: Entry)

  function Put(conns: Conns, touch: Touch): Conns {
    match touch
    case Nothing => conns
    case Touched(c, e) => conns[c := e]
  }

  function OtherTouch(s: State, a: Foreign): Touch
    requires EnabledOther(s, a)
  {
    match a
    case SendQueues(t) =>
      var c, m := s.sending[t].0, Msg(t, s.sending[t].1);
      Touched(c, s.conns[c].(accepted := s.conns[c].accepted + [m]))
    case Accepts(_, c, notify) => Touched(c, Entry(Created(notify), [], 0))
    case Removes(_, c) => Touched(c, s.conns[c].(closing := s.conns[c].closing - 1))
    case _ => Nothing
  }

  function OwnTouch(s: State, a: Own): Touch
    requires EnabledOwn(s, a)
  {
    match a
    case OwnSend(c, bytes, w) =>
      var e, m := s.conns[c], Msg(OWNER, bytes);
      Touched(c, e.(k := Send(e.k, m, w).conn,
                    accepted := if e.k.state == Connected then e.accepted + [m] else e.accepted))
    case OwnShutdown(c) => Touched(c, s.conns[c].(k := Shutdown(s.conns[c].k)))
    case OwnAccepts(c, notify) => Touched(c, Entry(ConnectionEstablished(Created(notify)), [], 0))
    case OwnRemoves(c) => Touched(c, s.conns[c].(closing := s.conns[c].closing - 1))
    case _ => Nothing
  }

  /** The entry of the handled connection after a branch of m_handleEvent. */
  function Branched(e: Entry, k: Conn): Entry {
    e.(k := k, closing := if k.closes > e.k.closes then e.closing + 1 else e.closing)
  }

  /** The entry of a connection after a functor about it. */
  function Effect(e: Entry, f: Functor, w: int): Entry
    requires f.SendLater? ==> -1 <= w <= |f.msg.bytes|
  {
    match f
    case SendLater(_, m) => e.(k := SendInLoop(e.k, m, w).conn)
    case Established(_) => e.(k := ConnectionEstablished(e.k))
    case Destroyed(_) => e.(k := ConnectionDestroyed(e.k))
    case _ => e
  }

  predicate HasEffect(f: Functor) {
    !f.User? && !f.WriteComplete?
  }

  /** A branch of the handler being run takes its connection to `k`. */
  function HandlerTouch(s: State, k: Conn): Touch
    requires s.at < |s.active| && s.active[s.at].Event? && s.active[s.at].conn in s.conns
  {
    Touched(s.active[s.at].conn, Branched(s.conns[s.active[s.at].conn], k))
  }

  function TurnTouch(s: State, a: Turn): Touch
    requires EnabledTurn(s, a)
  {
    match a
    case OnHup => HandlerTouch(s, HupBranch(Handled(s), s.active[s.at].revents))
    case OnRead(n) => HandlerTouch(s, ReadBranch(Handled(s), s.active[s.at].revents, n))
    case OnWrite(w) => HandlerTouch(s, WriteBranch(Handled(s), s.active[s.at].revents, w).conn)
    case Body(w) =>
      var f := s.body.value;
      if HasEffect(f) && f.conn in s.conns then Touched(f.conn, Effect(s.conns[f.conn], f, w)) else Nothing
    case _ => Nothing
  }

  function StepTouch(s: State, a: Action): Touch
    requires Enabled(s, a)
  {
    match a
    case ByOther(other) => OtherTouch(s, other)
    case ByUser(own) => OwnTouch(s, own)
    case ByLoop(turn) => TurnTouch(s, turn)
  }

  lemma OtherTouches(s: State, a: Foreign)
    requires EnabledOther(s, a)
    ensures ApplyOther(s, a).conns == Put(s.conns, OtherTouch(s, a))
  {
  }

  lemma OwnTouches(s: State, a: Own)
    requires InUserCode(s) && EnabledOwn(s, a)
    ensures ApplyOwn(s, a).conns == Put(s.conns, OwnTouch(s, a))
  {
  }

  lemma TurnTouches(s: State, a: Turn)
    requires EnabledTurn(s, a)
    ensures ApplyTurn(s, a).conns == Put(s.conns, TurnTouch(s, a))
  {
    if a.OnHup? || a.OnRead? || a.OnWrite? {
      BranchTouches(s, a);
    }
  }

  lemma BranchTouches(s: State, a: Turn)
    requires EnabledTurn(s, a) && (a.OnHup? || a.OnRead? || a.OnWrite?)
    ensures ApplyTurn(s, a).conns == Put(s.conns, TurnTouch(s, a))
  {
    match a
    case OnHup => HandlerTouches(s, HupBranch(Handled(s), s.active[s.at].revents));
    case OnRead(n) => HandlerTouches(s, ReadBranch(Handled(s), s.active[s.at].revents, n));
    case OnWrite(w) => HandlerTouches(s, WriteBranch(Handled(s), s.active[s.at].revents, w).conn);
  }

  lemma HandlerTouches(s: State, k: Conn)
    requires s.at < |s.active| && s.active[s.at].Event? && s.active[s.at].conn in s.conns
    ensures HandlerStep(s, k).conns == Put(s.conns, HandlerTouch(s, k))
  {
  }

  lemma StepTouches(s: State, a: Action)
    requires Enabled(s, a)
    ensures Apply(s, a).conns == Put(s.conns, StepTouch(s, a))
  {
    match a
    case ByOther(other) => OtherTouches(s, other);
    case ByUser(own) => OwnTouches(s, own);
    case ByLoop(turn) => TurnTouches(s, turn);
  }

  // ------------------------------------------------------------ that connection keeps its own invariant

  ghost predicate OkBefore(s: State, touch: Touch) {
    touch.Touched? && touch.c in s.conns ==> s.conns[touch.c].k.Ok()
  }

  ghost predicate OkAfter(touch: Touch) {
    touch.Touched? ==> touch.e.k.Ok()
  }

  lemma OtherKeepsOk(s: State, a: Foreign)
    requires EnabledOther(s, a) && OkBefore(s, OtherTouch(s, a))
    ensures OkAfter(OtherTouch(s, a))
  {
  }

  lemma OwnKeepsOk(s: State, a: Own)
    requires EnabledOwn(s, a) && OkBefore(s, OwnTouch(s, a))
    ensures OkAfter(OwnTouch(s, a))
  {
    match a
    case OwnSend(c, bytes, w) =>
      if s.conns[c].k.state == Connected {
        SendInLoopKeepsOk(s.conns[c].k, Msg(OWNER, bytes), w);
      }
    case OwnShutdown(c) => ShutdownKeepsOk(s.conns[c].k);
    case _ =>
  }

  /** The close branch runs only for a registered handler. */
  lemma HupKeepsOk(k: Conn, revents: R.Mask)
    requires k.Ok() && StageOk(k, revents, AtHup)
    ensures HupBranch(k, revents).Ok()
  {
    if revents.hup && !revents.input {
      HandleCloseKeepsOk(k);
    }
  }

  /** So does the read branch, unless the close branch has run, and then it does not close again. */
  lemma ReadKeepsOk(k: Conn, revents: R.Mask, n: int)
    requires k.Ok() && StageOk(k, revents, AtRead) && Sane(revents)
    ensures ReadBranch(k, revents, n).Ok()
  {
    if (revents.input || revents.pri || revents.rdhup) && n == 0 {
      HandleCloseKeepsOk(k);
    }
  }

  lemma WriteKeepsOk(k: Conn, revents: R.Mask, w: int)
    requires k.Ok() && -1 <= w <= |k.out|
    ensures WriteBranch(k, revents, w).conn.Ok()
  {
    HandleWriteKeepsOk(k, w);
  }

  /** What the queue says about a connection when a functor about it comes to run. */
  ghost predicate Due(e: Entry, f: Functor) {
    match f
    case SendLater(_, _) => e.k.state != Connecting
    case Established(_) => e.k.state == Connecting
    case _ => true
  }

  lemma EffectKeepsOk(e: Entry, f: Functor, w: int)
    requires e.k.Ok() && HasEffect(f) && Due(e, f)
    requires f.SendLater? ==> -1 <= w <= |f.msg.bytes|
    ensures Effect(e, f, w).k.Ok()
  {
    match f
    case SendLater(_, m) => SendInLoopKeepsOk(e.k, m, w);
    case Established(_) => EstablishedKeepsOk(e.k);
    case Destroyed(_) => DestroyedKeepsOk(e.k);
  }

  lemma TurnKeepsOk(s: State, a: Turn)
    requires EnabledTurn(s, a) && OkBefore(s, TurnTouch(s, a)) && DispatchOk(s)
    requires a.Body? && TurnTouch(s, a).Touched? ==> Due(s.conns[TurnTouch(s, a).c], s.body.value)
    ensures OkAfter(TurnTouch(s, a))
  {
    if a.OnHup? || a.OnRead? || a.OnWrite? {
      var c, revents := s.active[s.at].conn, s.active[s.at].revents;
      assert s.active[s.at] == Event(c, revents);
      assert StageOk(s.conns[c].k, revents, s.stage) && Sane(revents);
      match a {
        case OnHup => HupKeepsOk(s.conns[c].k, revents);
        case OnRead(n) => ReadKeepsOk(s.conns[c].k, revents, n);
        case OnWrite(w) => WriteKeepsOk(s.conns[c].k, revents, w);
      }
    } else if a.Body? && TurnTouch(s, a).Touched? {
      EffectKeepsOk(s.conns[TurnTouch(s, a).c], s.body.value, a.w);
    }
  }

  // ------------------------------------------------------------ and its place in the queue

  /** An entry that is fine with the queue as it is, or a connection that does not exist yet. */
  ghost predicate QueueBefore(s: State, touch: Touch, work: seq<Functor>) {
    touch.Touched? ==>
      var c := touch.c;
      if c in s.conns then QueueOk(c, s.conns[c], work)
      else Sends(work, c) == [] && Count(work, Established(c)) == 0 && Count(work, Destroyed(c)) == 0
  }

  ghost predicate QueueAfter(touch: Touch, work: seq<Functor>) {
    touch.Touched? ==> QueueOk(touch.c, touch.e, work)
  }

  /** A connection that no functor is about yet. */
  lemma NewQueueOk(c: ConnId, k: Conn, work: seq<Functor>)
    requires Sends(work, c) == [] && Count(work, Established(c)) == 0 && Count(work, Destroyed(c)) == 0
    requires k.ran == [] && k.closes == k.destroyed == 0
    ensures k.state == Connecting ==> QueueOk(c, Entry(k, [], 0), work + [Established(c)])
    ensures k.state != Connecting ==> QueueOk(c, Entry(k, [], 0), work)
  {
    Snoc(work, Established(c), c);
    forall t: Tid ensures OrderKept(t, Entry(k, [], 0), []) {
    }
  }

  /** A completion is about no connection's entry. */
  lemma WithCompletion(c: ConnId, e: Entry, work: seq<Functor>, completes: bool)
    requires QueueOk(c, e, work)
    ensures QueueOk(c, e, Grown(work, Completing(c, completes)))
  {
    if completes {
      PushElsewhere(c, e, work, WriteComplete(c));
    } else {
    }
  }

  lemma SendQueuesKeepsPlace(s: State, a: Foreign, work: seq<Functor>)
    requires EnabledOther(s, a) && a.SendQueues? && SendingOk(s) && QueueBefore(s, OtherTouch(s, a), work)
    ensures QueueAfter(OtherTouch(s, a), Grown(work, OtherAct(s, a)))
  {
    var c, m := s.sending[a.t].0, Msg(a.t, s.sending[a.t].1);
    AcceptForeign(c, s.conns[c], m, work);
  }

  lemma AcceptsKeepsPlace(s: State, a: Foreign, work: seq<Functor>)
    requires EnabledOther(s, a) && a.Accepts? && QueueBefore(s, OtherTouch(s, a), work)
    ensures QueueAfter(OtherTouch(s, a), Grown(work, OtherAct(s, a)))
  {
    NewQueueOk(a.c, Created(a.notify), work);
  }

  lemma RemovesKeepsPlace(s: State, a: Foreign, work: seq<Functor>)
    requires EnabledOther(s, a) && a.Removes? && QueueBefore(s, OtherTouch(s, a), work)
    ensures QueueAfter(OtherTouch(s, a), Grown(work, OtherAct(s, a)))
  {
    var e := s.conns[a.c];
    QueueDestroyed(a.c, e, work);
    assert OtherTouch(s, a) == Touched(a.c, e.(closing := e.closing - 1));
    assert Grown(work, OtherAct(s, a)) == work + [Destroyed(a.c)];
  }

  lemma OtherKeepsPlace(s: State, a: Foreign, work: seq<Functor>)
    requires EnabledOther(s, a) && SendingOk(s) && QueueBefore(s, OtherTouch(s, a), work)
    ensures QueueAfter(OtherTouch(s, a), Grown(work, OtherAct(s, a)))
  {
    match a
    case SendQueues(_) => SendQueuesKeepsPlace(s, a, work);
    case Accepts(_, _, _) => AcceptsKeepsPlace(s, a, work);
    case Removes(_, _) => RemovesKeepsPlace(s, a, work);
    case _ =>
  }

  /** A step on one connection that ran no message. */
  lemma InPlaceEntry(c: ConnId, e: Entry, k: Conn, work: seq<Functor>)
    requires QueueOk(c, e, work) && SameForQueue(k, e.k) && k.destroyed == e.k.destroyed
    requires e.k.closes <= k.closes <= e.k.closes + 1
    ensures QueueOk(c, Branched(e, k), work)
  {
    StepInPlace(c, e, k, Branched(e, k).closing, work);
  }

  lemma OwnSendKeepsPlace(s: State, a: Own, work: seq<Functor>)
    requires EnabledOwn(s, a) && a.OwnSend? && QueueBefore(s, OwnTouch(s, a), work)
    ensures QueueAfter(OwnTouch(s, a), Grown(work, OwnAct(s, a)))
  {
    var e, m := s.conns[a.c], Msg(OWNER, a.bytes);
    if e.k.state == Connected {
      AcceptOwn(a.c, e, m, SendInLoop(e.k, m, a.w).conn, work);
    } else {
      assert e.(k := e.k, accepted := e.accepted) == e;
    }
    WithCompletion(a.c, OwnTouch(s, a).e, work, Send(e.k, m, a.w).completes);
  }

  lemma OwnAcceptsKeepsPlace(s: State, a: Own, work: seq<Functor>)
    requires EnabledOwn(s, a) && a.OwnAccepts? && QueueBefore(s, OwnTouch(s, a), work)
    ensures QueueAfter(OwnTouch(s, a), Grown(work, OwnAct(s, a)))
  {
    NewQueueOk(a.c, ConnectionEstablished(Created(a.notify)), work);
  }

  lemma OwnShutdownKeepsPlace(s: State, a: Own, work: seq<Functor>)
    requires EnabledOwn(s, a) && a.OwnShutdown? && QueueBefore(s, OwnTouch(s, a), work)
    ensures QueueAfter(OwnTouch(s, a), Grown(work, OwnAct(s, a)))
  {
    var e := s.conns[a.c];
    InPlaceEntry(a.c, e, Shutdown(e.k), work);
    assert Branched(e, Shutdown(e.k)) == e.(k := Shutdown(e.k));
  }

  lemma OwnRemovesKeepsPlace(s: State, a: Own, work: seq<Functor>)
    requires EnabledOwn(s, a) && a.OwnRemoves? && QueueBefore(s, OwnTouch(s, a), work)
    ensures QueueAfter(OwnTouch(s, a), Grown(work, OwnAct(s, a)))
  {
    var e := s.conns[a.c];
    QueueDestroyed(a.c, e, work);
    assert OwnTouch(s, a) == Touched(a.c, e.(closing := e.closing - 1));
    assert Grown(work, OwnAct(s, a)) == work + [Destroyed(a.c)];
  }

  lemma OwnKeepsPlace(s: State, a: Own, work: seq<Functor>)
    requires EnabledOwn(s, a) && QueueBefore(s, OwnTouch(s, a), work)
    ensures QueueAfter(OwnTouch(s, a), Grown(work, OwnAct(s, a)))
  {
    match a
    case OwnSend(_, _, _) => OwnSendKeepsPlace(s, a, work);
    case OwnShutdown(_) => OwnShutdownKeepsPlace(s, a, work);
    case OwnAccepts(_, _) => OwnAcceptsKeepsPlace(s, a, work);
    case OwnRemoves(_) => OwnRemovesKeepsPlace(s, a, work);
    case _ =>
  }

  /** handleWrite leaves alone what the queue depends on. */
  lemma WriteKeepsHistory(k: Conn, w: int)
    requires -1 <= w <= |k.out|
    ensures var t := HandleWrite(k, w).conn;
            t.ran == k.ran && t.state == k.state && t.closes == k.closes && t.destroyed == k.destroyed
  {
    if k.reg.IsWriting() && w > 0 && w == |k.out| {
      DrainedKeepsHistory(AfterWrite(k, w));
    }
  }

  lemma DrainedKeepsHistory(k: Conn)
    ensures var t := WithoutBacklog(k);
            t.ran == k.ran && t.state == k.state && t.closes == k.closes && t.destroyed == k.destroyed
  {
  }

  lemma BranchKeepsPlace(s: State, a: Turn, work: seq<Functor>)
    requires EnabledTurn(s, a) && (a.OnHup? || a.OnRead? || a.OnWrite?)
    requires Handled(s).state != Connecting
    requires QueueBefore(s, TurnTouch(s, a), work)
    ensures QueueAfter(TurnTouch(s, a), Grown(work, TurnAct(s, a)))
  {
    var c, revents := s.active[s.at].conn, s.active[s.at].revents;
    var e := s.conns[c];
    match a
    case OnHup => InPlaceEntry(c, e, HupBranch(e.k, revents), work);
    case OnRead(n) => InPlaceEntry(c, e, ReadBranch(e.k, revents, n), work);
    case OnWrite(w) =>
      WriteKeepsHistory(e.k, w);
      InPlaceEntry(c, e, WriteBranch(e.k, revents, w).conn, work);
      WithCompletion(c, TurnTouch(s, a).e, work, WriteBranch(e.k, revents, w).completes);
  }

  /** The functor at the head of the queue takes effect. */
  lemma EffectKeepsPlace(c: ConnId, e: Entry, f: Functor, w: int, work: seq<Functor>)
    requires QueueOk(c, e, work) && (0 < e.k.closes ==> e.k.state == Disconnected)
    requires work != [] && work[0] == f && HasEffect(f) && f.conn == c
    requires f.SendLater? ==> -1 <= w <= |f.msg.bytes|
    ensures Due(e, f) && QueueOk(c, Effect(e, f, w), work[1..])
  {
    match f
    case SendLater(_, m) => RunQueuedSend(c, e, m, SendInLoop(e.k, m, w).conn, work);
    case Established(_) => RunEstablished(c, e, work);
    case Destroyed(_) => RunDestroyed(c, e, work);
  }

  /** The functor being run is the head of the work. */
  ghost predicate Running(s: State, a: Turn, work: seq<Functor>) {
    a.Body? ==> s.body.Some? && work != [] && work[0] == s.body.value
  }

  function Rest(a: Turn, work: seq<Functor>): seq<Functor>
    requires a.Body? ==> work != []
  {
    if a.Body? then work[1..] else work
  }

  lemma BodyKeepsPlace(s: State, a: Turn, work: seq<Functor>)
    requires EnabledTurn(s, a) && a.Body? && Running(s, a, work)
    requires OkBefore(s, TurnTouch(s, a)) && QueueBefore(s, TurnTouch(s, a), work)
    ensures TurnTouch(s, a).Touched? ==> Due(s.conns[TurnTouch(s, a).c], s.body.value)
    ensures QueueAfter(TurnTouch(s, a), Grown(Rest(a, work), TurnAct(s, a)))
  {
    var f := s.body.value;
    if HasEffect(f) && f.conn in s.conns {
      EffectKeepsPlace(f.conn, s.conns[f.conn], f, a.w, work);
      var completes := f.SendLater? && SendInLoop(s.conns[f.conn].k, f.msg, a.w).completes;
      WithCompletion(f.conn, TurnTouch(s, a).e, work[1..], completes);
    }
  }

  // ------------------------------------------------------------ everything else

  /** What a step pushes or runs is about the connection it touches, or about none's entry. */
  ghost predicate PushesElsewhere(act: Option<L.Act<Functor>>, d: ConnId) {
    match act
    case Some(ForeignPush(_, f)) => Elsewhere(f, d)
    case Some(OwnPush(f)) => Elsewhere(f, d)
    case _ => true
  }

  lemma StepPushesElsewhere(s: State, a: Action, d: ConnId)
    requires Enabled(s, a)
    requires StepTouch(s, a).Touched? ==> StepTouch(s, a).c != d
    ensures PushesElsewhere(LoopAct(s, a), d)
  {
  }

  lemma GrownElsewhere(d: ConnId, e: Entry, work: seq<Functor>, act: Option<L.Act<Functor>>)
    requires QueueOk(d, e, work) && PushesElsewhere(act, d)
    ensures QueueOk(d, e, Grown(work, act))
  {
    match act
    case Some(ForeignPush(_, f)) => PushElsewhere(d, e, work, f);
    case Some(OwnPush(f)) => PushElsewhere(d, e, work, f);
    case _ =>
  }

  /** The work that is left once the functor being run, if any, has taken effect. */
  function Remaining(a: Action, work: seq<Functor>): seq<Functor>
    requires a.ByLoop? && a.turn.Body? ==> work != []
  {
    if a.ByLoop? then Rest(a.turn, work) else work
  }

  ghost predicate StepRuns(s: State, a: Action, work: seq<Functor>) {
    a.ByLoop? ==> Running(s, a.turn, work)
  }

  /** A connection that the step does not touch. */
  lemma UntouchedKeepsPlace(s: State, a: Action, d: ConnId, work: seq<Functor>)
    requires Enabled(s, a) && StepRuns(s, a, work) && d in s.conns && QueueOk(d, s.conns[d], work)
    requires StepTouch(s, a).Touched? ==> StepTouch(s, a).c != d
    ensures QueueOk(d, s.conns[d], Grown(Remaining(a, work), LoopAct(s, a)))
  {
    StepPushesElsewhere(s, a, d);
    if a.ByLoop? && a.turn.Body? {
      PopElsewhere(d, s.conns[d], work);
    }
    GrownElsewhere(d, s.conns[d], Remaining(a, work), LoopAct(s, a));
  }

  /** The connection that it touches. */
  lemma TouchedKeepsPlace(s: State, a: Action, work: seq<Functor>)
    requires Enabled(s, a) && StepRuns(s, a, work) && SendingOk(s) && DispatchOk(s)
    requires OkBefore(s, StepTouch(s, a)) && QueueBefore(s, StepTouch(s, a), work)
    ensures QueueAfter(StepTouch(s, a), Grown(Remaining(a, work), LoopAct(s, a)))
    ensures OkAfter(StepTouch(s, a))
  {
    match a
    case ByOther(other) =>
      OtherKeepsPlace(s, other, work);
      OtherKeepsOk(s, other);
    case ByUser(own) =>
      OwnKeepsPlace(s, own, work);
      OwnKeepsOk(s, own);
    case ByLoop(turn) =>
      TurnKeepsPlace(s, turn, work);
      TurnKeepsOk(s, turn);
  }

  lemma TurnKeepsPlace(s: State, a: Turn, work: seq<Functor>)
    requires EnabledTurn(s, a) && Running(s, a, work) && DispatchOk(s)
    requires OkBefore(s, TurnTouch(s, a)) && QueueBefore(s, TurnTouch(s, a), work)
    ensures QueueAfter(TurnTouch(s, a), Grown(Rest(a, work), TurnAct(s, a)))
    ensures a.Body? && TurnTouch(s, a).Touched? ==> Due(s.conns[TurnTouch(s, a).c], s.body.value)
  {
    if a.Body? {
      BodyKeepsPlace(s, a, work);
    } else if a.OnHup? || a.OnRead? || a.OnWrite? {
      HandledIsKnown(s);
      BranchKeepsPlace(s, a, work);
    }
  }

  /** A connection whose handler runs has been registered, so it is established. */
  lemma HandledIsKnown(s: State)
    requires DispatchOk(s) && s.loop.pc == L.Dispatching
    requires s.at < |s.active| && s.active[s.at].Event? && s.active[s.at].conn in s.conns
    requires Handled(s).Ok()
    ensures Handled(s).state != Connecting
  {
    assert s.active[s.at] == Event(s.active[s.at].conn, s.active[s.at].revents);
  }

  lemma StepKeepsEntries(s: State, a: Action, work: seq<Functor>)
    requires Enabled(s, a) && StepRuns(s, a, work) && SendingOk(s) && DispatchOk(s)
    requires EntriesOk(s.conns, work) && Known(s.conns, work)
    ensures EntriesOk(Apply(s, a).conns, Grown(Remaining(a, work), LoopAct(s, a)))
  {
    StepTouches(s, a);
    var touch, after := StepTouch(s, a), Apply(s, a).conns;
    if touch.Touched? && touch.c !in s.conns {
      NothingQueued(s.conns, work, touch.c);
    }
    TouchedKeepsPlace(s, a, work);
    forall d | d in after ensures after[d].k.Ok() && QueueOk(d, after[d], Grown(Remaining(a, work), LoopAct(s, a))) {
      if !(touch.Touched? && touch.c == d) {
        UntouchedKeepsPlace(s, a, d, work);
      }
    }
  }

  /** Nothing is queued about a connection that does not exist. */
  lemma {:induction false} NothingQueued(conns: Conns, work: seq<Functor>, c: ConnId)
    requires Known(conns, work) && c !in conns
    ensures Sends(work, c) == []
    ensures Count(work, Established(c)) == 0 && Count(work, Destroyed(c)) == 0
  {
    if work != [] {
      assert work[0] in work;
      NothingQueued(conns, work[1..], c);
    }
  }

  lemma StepKeepsKnown(s: State, a: Action, work: seq<Functor>)
    requires Enabled(s, a) && StepRuns(s, a, work) && Known(s.conns, work)
    ensures Known(Apply(s, a).conns, Grown(Remaining(a, work), LoopAct(s, a)))
  {
    StepTouches(s, a);
  }

  /** No connection goes back to where it was before it was established. */
  ghost predicate StaysOpen(s: State, touch: Touch) {
    touch.Touched? && touch.c in s.conns && s.conns[touch.c].k.state != Connecting ==> touch.e.k.state != Connecting
  }

  lemma OwnStaysOpen(s: State, a: Own)
    requires EnabledOwn(s, a)
    ensures StaysOpen(s, OwnTouch(s, a))
  {
  }

  lemma TurnStaysOpen(s: State, a: Turn)
    requires EnabledTurn(s, a)
    ensures StaysOpen(s, TurnTouch(s, a))
  {
    if a.OnWrite? {
      WriteKeepsHistory(Handled(s), a.w);
    }
  }

  lemma StepStaysOpen(s: State, a: Action)
    requires Enabled(s, a)
    ensures StaysOpen(s, StepTouch(s, a))
  {
    match a
    case ByOther(other) =>
    case ByUser(own) => OwnStaysOpen(s, own);
    case ByLoop(turn) => TurnStaysOpen(s, turn);
  }

  /** Threads come to be inside a send only on an open connection. */
  ghost predicate SendsOnKnown(s: State, t: State) {
    forall u <- t.sending ::
      || (u in s.sending && t.sending[u] == s.sending[u])
      || (u != OWNER && t.sending[u].0 in s.conns && s.conns[t.sending[u].0].k.state != Connecting)
  }

  lemma StepSendsOnKnown(s: State, a: Action)
    requires Enabled(s, a)
    ensures SendsOnKnown(s, Apply(s, a))
  {
    match a
    case ByOther(other) =>
    case ByUser(own) => OwnSendingSame(s, own);
    case ByLoop(turn) => TurnSendingSame(s, turn);
  }

  lemma OwnSendingSame(s: State, a: Own)
    requires InUserCode(s) && EnabledOwn(s, a)
    ensures ApplyOwn(s, a).sending == s.sending
  {
  }

  lemma TurnSendingSame(s: State, a: Turn)
    requires EnabledTurn(s, a)
    ensures ApplyTurn(s, a).sending == s.sending
  {
  }

  lemma StepKeepsSending(s: State, a: Action)
    requires Enabled(s, a) && SendingOk(s)
    ensures SendingOk(Apply(s, a))
  {
    StepTouches(s, a);
    StepStaysOpen(s, a);
    StepSendsOnKnown(s, a);
    KnownSendersStay(s, Apply(s, a), StepTouch(s, a));
  }

  lemma KnownSendersStay(s: State, t: State, touch: Touch)
    requires SendingOk(s) && SendsOnKnown(s, t) && t.conns == Put(s.conns, touch) && StaysOpen(s, touch)
    ensures SendingOk(t)
  {
  }

  // ------------------------------------------------------------ the dispatch

  /** What user code and other threads cannot undo: a registered connection stays registered. */
  ghost predicate StaysRegistered(s: State, touch: Touch) {
    touch.Touched? && touch.c in s.conns ==>
      var was, now := s.conns[touch.c].k.reg.state, touch.e.k.reg.state;
      (was == R.Added ==> now == R.Added) && (was != R.New ==> now != R.New)
  }

  lemma DispatchUndisturbed(s: State, t: State, touch: Touch)
    requires DispatchOk(s) && StaysRegistered(s, touch) && t.conns == Put(s.conns, touch)
    requires t.loop.pc == s.loop.pc && t.active == s.active && t.at == s.at && t.stage == s.stage
    ensures DispatchOk(t)
  {
  }

  lemma OwnStaysRegistered(s: State, a: Own)
    requires EnabledOwn(s, a)
    ensures StaysRegistered(s, OwnTouch(s, a))
  {
  }

  lemma OtherStaysRegistered(s: State, a: Foreign)
    requires EnabledOther(s, a)
    ensures StaysRegistered(s, OtherTouch(s, a))
  {
  }

  /** The poll hands over registered connections, because the kernel knows no others. */
  lemma PollStartsDispatch(s: State, a: Turn)
    requires EnabledTurn(s, a) && a.Polls? && AllOk(s.conns)
    ensures DispatchOk(ApplyTurn(s, a))
  {
    var t := ApplyTurn(s, a);
    forall j | 0 <= j < |t.active| && t.active[j].Event?
      ensures t.active[j].conn in t.conns && t.conns[t.active[j].conn].k.reg.state == R.Added
      ensures Sane(t.active[j].revents)
    {
      assert a.ready[j].Event?;
      assert s.conns[a.ready[j].conn].k.reg.Ok();
    }
  }

  /** A branch that only goes on to the next branch of the same handler. */
  lemma StageAdvances(s: State, k: Conn, stage: Stage)
    requires DispatchOk(s) && Handling(s, s.stage) && s.stage != AtWrite && stage != AtHup
    requires k.reg.state != R.New && StageOk(k, s.active[s.at].revents, stage)
    ensures DispatchOk(HandlerStep(s, k).(stage := stage))
  {
    var c := s.active[s.at].conn;
    var t := HandlerStep(s, k).(stage := stage);
    forall j | s.at < j < |s.active| && s.active[j].Event? ensures s.active[j].conn != c {
    }
  }

  lemma HupAdvances(s: State, a: Turn)
    requires EnabledTurn(s, a) && a.OnHup? && DispatchOk(s)
    ensures DispatchOk(ApplyTurn(s, a))
  {
    var k, revents := Handled(s), s.active[s.at].revents;
    assert s.active[s.at] == Event(s.active[s.at].conn, revents);
    R.UpdateIsKnown(k.reg, R.NONE_EVENT);
    StageAdvances(s, HupBranch(k, revents), AtRead);
  }

  lemma ReadAdvances(s: State, a: Turn)
    requires EnabledTurn(s, a) && a.OnRead? && DispatchOk(s)
    ensures DispatchOk(ApplyTurn(s, a))
  {
    var k, revents := Handled(s), s.active[s.at].revents;
    assert s.active[s.at] == Event(s.active[s.at].conn, revents);
    R.UpdateIsKnown(k.reg, R.NONE_EVENT);
    StageAdvances(s, ReadBranch(k, revents, a.n), AtWrite);
  }

  /** The handler is done: the next one is registered, for nothing but itself could have closed it. */
  lemma HandlerDone(s: State, t: State)
    requires DispatchOk(s) && s.loop.pc == t.loop.pc == L.Dispatching && s.at < |s.active|
    requires t.active == s.active && t.at == s.at + 1 && t.stage == AtHup
    requires forall c | c in s.conns && (s.active[s.at].Event? ==> c != s.active[s.at].conn) ::
               c in t.conns && t.conns[c] == s.conns[c]
    ensures DispatchOk(t)
  {
    forall j | t.at <= j < |t.active| && t.active[j].Event?
      ensures t.active[j].conn in t.conns && t.conns[t.active[j].conn].k.reg.state == R.Added
      ensures Sane(t.active[j].revents)
    {
      var Event(c, revents) := s.active[j];
      assert s.conns[c].k.reg.state == R.Added;
    }
  }

  lemma HandlerFinishes(s: State, a: Turn)
    requires EnabledTurn(s, a) && (a.OnWrite? || a.ReadsWakeup?) && DispatchOk(s)
    ensures DispatchOk(ApplyTurn(s, a))
  {
    HandlerDone(s, ApplyTurn(s, a));
  }

  /** The other steps of the loop end the dispatch or happen outside it. */
  lemma TurnOutsideDispatch(s: State, a: Turn)
    requires EnabledTurn(s, a) && DispatchOk(s)
    requires !(a.Polls? || a.OnHup? || a.OnRead? || a.OnWrite? || a.ReadsWakeup?)
    ensures DispatchOk(ApplyTurn(s, a))
  {
    match a
    case Body(w) => BodyOutsideDispatch(s, w);
    case _ => LeavesDispatch(s, a);
  }

  /** A step that is none of the loop's own within a dispatch leaves the loop thread outside one. */
  lemma LeavesDispatch(s: State, a: Turn)
    requires EnabledTurn(s, a)
    requires !(a.Polls? || a.OnHup? || a.OnRead? || a.OnWrite? || a.ReadsWakeup? || a.Body?)
    ensures var t := ApplyTurn(s, a);
            && t.conns == s.conns && t.active == s.active && t.at == s.at && t.stage == s.stage
            && (t.loop.pc == L.Dispatching ==> s.loop.pc == L.Dispatching)
  {
  }

  lemma BodyOutsideDispatch(s: State, w: int)
    requires EnabledTurn(s, Body(w))
    ensures ApplyTurn(s, Body(w)).loop.pc == L.Calling
  {
    BodyProjects(s, w);
  }

  lemma TurnKeepsDispatch(s: State, a: Turn)
    requires EnabledTurn(s, a) && DispatchOk(s) && AllOk(s.conns)
    ensures DispatchOk(ApplyTurn(s, a))
  {
    match a
    case Polls(_) => PollStartsDispatch(s, a);
    case OnHup => HupAdvances(s, a);
    case OnRead(_) => ReadAdvances(s, a);
    case OnWrite(_) => HandlerFinishes(s, a);
    case ReadsWakeup => HandlerFinishes(s, a);
    case _ => TurnOutsideDispatch(s, a);
  }

  lemma StepKeepsDispatch(s: State, a: Action)
    requires Enabled(s, a) && DispatchOk(s) && AllOk(s.conns)
    ensures DispatchOk(Apply(s, a))
  {
    match a
    case ByOther(other) =>
      OtherTouches(s, other);
      OtherStaysRegistered(s, other);
      DispatchUndisturbed(s, Apply(s, a), OtherTouch(s, other));
    case ByUser(own) =>
      OwnTouches(s, own);
      OwnStaysRegistered(s, own);
      DispatchUndisturbed(s, Apply(s, a), OwnTouch(s, own));
    case ByLoop(turn) => TurnKeepsDispatch(s, turn);
  }

  lemma StepKeepsInv(s: State, a: Action)
    requires Inv(s) && Enabled(s, a)
    ensures Inv(Apply(s, a))
  {
    var work := s.Work();
    StepOnWork(s, a);
    StepKeepsLoopOk(s, a);
    StepKeepsEntries(s, a, work);
    StepKeepsKnown(s, a, work);
    StepKeepsSending(s, a);
    StepKeepsDispatch(s, a);
  }

  lemma {:induction false} RunKeepsInv(s: State, acts: seq<Action>)
    requires Inv(s) && Legal(s, acts)
    ensures Inv(Run(s, acts))
    decreases |acts|
  {
    if acts != [] {
      StepKeepsInv(s, acts[0]);
      RunKeepsInv(Apply(s, acts[0]), acts[1..]);
    }
  }

  /** In every run from the start, whatever the threads, the kernel and the user's callbacks do. */
  lemma ReachableInv(acts: seq<Action>)
    requires Legal(Start(), acts)
    ensures Inv(Run(Start(), acts))
  {
    RunKeepsInv(Start(), acts);
  }
}
