/**
 * When what a connection has sent is all it will ever send: the exact condition,
 * which can be read off before the call, for a half-close and for a close.
 */
module ReactorFinality {
  import opened Basics
  import opened Connection
  import opened Reactor
  import opened ReactorInvariant
  import opened ReactorProgress
  import opened ReactorSteps
  import opened ReactorTheorems

  // ------------------------------------------------------------ nothing is on its way

  /** No other thread is inside a send on `c`. */
  ghost predicate NotSending(sending: map<Tid, (ConnId, seq<byte>)>, c: ConnId) {
    forall t <- sending :: sending[t].0 != c
  }

  /** Nor is one queued for it. */
  ghost predicate Silent(s: State, c: ConnId) {
    && NotSending(s.sending, c)
    && s.loop.next <= |s.loop.batch|
    && Sends(s.Work(), c) == []
  }

  predicate ForeignSend(a: Action, c: ConnId) {
    a.ByOther? && a.other.SendBegins? && a.other.c == c
  }

  /** The queue of a step holds a send to `c` only if another thread put it there. */
  lemma SendsGrown(s: State, a: Action, c: ConnId, work: seq<Functor>)
    requires Enabled(s, a) && NotSending(s.sending, c) && Sends(work, c) == []
    ensures Sends(Grown(work, LoopAct(s, a)), c) == []
  {
    match LoopAct(s, a)
    case Some(ForeignPush(_, f)) => SendsSnoc(work, f, c);
    case Some(OwnPush(f)) => SendsSnoc(work, f, c);
    case _ =>
  }

  lemma StepKeepsSilentWork(s: State, a: Action, c: ConnId)
    requires LoopOk(s) && Enabled(s, a) && Silent(s, c)
    ensures Apply(s, a).loop.next <= |Apply(s, a).loop.batch|
    ensures Sends(Apply(s, a).Work(), c) == []
  {
    StepOnWork(s, a);
    SendsGrown(s, a, c, Remaining(a, s.Work()));
  }

  lemma OtherKeepsNotSending(s: State, a: Foreign, c: ConnId)
    requires EnabledOther(s, a) && NotSending(s.sending, c) && !(a.SendBegins? && a.c == c)
    ensures NotSending(ApplyOther(s, a).sending, c)
  {
  }

  lemma StepKeepsNotSending(s: State, a: Action, c: ConnId)
    requires Enabled(s, a) && NotSending(s.sending, c) && !ForeignSend(a, c)
    ensures NotSending(Apply(s, a).sending, c)
  {
    match a
    case ByOther(other) => OtherKeepsNotSending(s, other, c);
    case ByUser(own) => OwnSendingSame(s, own);
    case ByLoop(turn) => TurnSendingSame(s, turn);
  }

  lemma StepKeepsSilent(s: State, a: Action, c: ConnId)
    requires LoopOk(s) && Enabled(s, a) && Silent(s, c) && !ForeignSend(a, c)
    ensures Silent(Apply(s, a), c)
  {
    StepKeepsNotSending(s, a, c);
    StepKeepsSilentWork(s, a, c);
  }

  // ------------------------------------------------------------ then nothing more is sent

  /** Its send calls have no effect any more. */
  predicate Refusing(k: Conn) {
    k.state == Disconnecting || k.state == Disconnected
  }

  /** No message was accepted and none ran. */
  ghost predicate SameMessages(e: Entry, was: Entry) {
    e.accepted == was.accepted && e.k.ran == was.k.ran
  }

  ghost predicate TouchSilent(s: State, touch: Touch, c: ConnId) {
    touch.Touched? && touch.c == c && c in s.conns ==> SameMessages(touch.e, s.conns[c])
  }

  lemma OtherTouchesSilently(s: State, a: Foreign, c: ConnId)
    requires EnabledOther(s, a) && NotSending(s.sending, c)
    ensures TouchSilent(s, OtherTouch(s, a), c)
  {
  }

  lemma OwnTouchesSilently(s: State, a: Own, c: ConnId)
    requires EnabledOwn(s, a) && c in s.conns && Refusing(s.conns[c].k)
    ensures TouchSilent(s, OwnTouch(s, a), c)
  {
  }

  lemma TurnTouchesSilently(s: State, a: Turn, c: ConnId, work: seq<Functor>)
    requires EnabledTurn(s, a) && Running(s, a, work) && Sends(work, c) == []
    ensures TouchSilent(s, TurnTouch(s, a), c)
  {
    if a.OnWrite? {
      WriteKeepsHistory(Handled(s), a.w);
    }
  }

  lemma StepTouchesSilently(s: State, a: Action, c: ConnId)
    requires Enabled(s, a) && Silent(s, c) && c in s.conns && Refusing(s.conns[c].k)
    requires StepRuns(s, a, s.Work())
    ensures TouchSilent(s, StepTouch(s, a), c)
  {
    match a
    case ByOther(other) => OtherTouchesSilently(s, other, c);
    case ByUser(own) => OwnTouchesSilently(s, own, c);
    case ByLoop(turn) => TurnTouchesSilently(s, turn, c, s.Work());
  }

  lemma StepSendsNothing(s: State, a: Action, c: ConnId)
    requires LoopOk(s) && Enabled(s, a) && Silent(s, c) && c in s.conns && Refusing(s.conns[c].k)
    ensures c in Apply(s, a).conns && SameMessages(Apply(s, a).conns[c], s.conns[c])
    ensures Silent(Apply(s, a), c)
  {
    StepTouches(s, a);
    RunsHeadOfWork(s, a);
    StepTouchesSilently(s, a, c);
    StepKeepsSilent(s, a, c);
  }

  lemma {:induction false} RunSendsNothing(s: State, acts: seq<Action>, c: ConnId)
    requires Inv(s) && Legal(s, acts) && Silent(s, c) && c in s.conns && Refusing(s.conns[c].k)
    ensures c in Run(s, acts).conns && SameMessages(Run(s, acts).conns[c], s.conns[c])
    ensures Silent(Run(s, acts), c)
    decreases |acts|
  {
    if acts != [] {
      StepSendsNothing(s, acts[0], c);
      StepKeepsInv(s, acts[0]);
      StepFollows(s, acts[0], c);
      RunSendsNothing(Apply(s, acts[0]), acts[1..], c);
    }
  }

  // ------------------------------------------------------------ and otherwise something is

  lemma ByPrefix(t: Tid, msgs: seq<Msg>, more: seq<Msg>)
    requires msgs <= more
    ensures |By(t, msgs)| <= |By(t, more)|
  {
    ByAppend(t, msgs, more[|msgs|..]);
    assert more == msgs + more[|msgs|..];
  }

  /** A queued send was accepted and has not run. */
  lemma QueuedIsMissing(e: Entry, queued: seq<Msg>) returns (t: Tid)
    requires SendsOk(e, queued) && queued != []
    ensures |By(t, e.k.ran)| < |By(t, e.accepted)|
  {
    t := queued[0].from;
    SplitFirst(queued);
    ByCons(t, queued[0], queued[1..]);
    assert OrderKept(t, e, queued);
  }

  /** A queued send can come to run, whatever has become of the connection by then. */
  lemma QueuedSendCanRun(s: State, c: ConnId) returns (acts: seq<Action>, u: State)
    requires Inv(s) && c in s.conns && Sends(s.Work(), c) != []
    ensures Leads(s, acts, u) && c in u.conns && u.conns[c].k.ran != s.conns[c].k.ran
  {
    acts, u := SomeRunEmptiesQueue(s);
    RunFollows(s, acts, c);
    var t := QueuedIsMissing(s.conns[c], Sends(s.Work(), c));
    AllHasRun(u, c, t);
    ByPrefix(t, s.conns[c].accepted, u.conns[c].accepted);
  }

  lemma AllHasRun(s: State, c: ConnId, t: Tid)
    requires Drained(s) && c in s.conns
    ensures By(t, s.conns[c].k.ran) == By(t, s.conns[c].accepted)
  {
    assert OrderKept(t, s.conns[c], Sends(s.Work(), c));
    NothingAdded(By(t, s.conns[c].k.ran));
  }

  /** So can a send that another thread has begun. */
  lemma BegunSendCanRun(s: State, c: ConnId, t: Tid) returns (acts: seq<Action>, u: State)
    requires Inv(s) && c in s.conns && t in s.sending && s.sending[t].0 == c
    ensures Leads(s, acts, u) && c in u.conns && u.conns[c].k.ran != s.conns[c].k.ran
  {
    var queues, mid := SenderFinishes(s, t);
    RunFollows(s, queues, c);
    var runs;
    runs, u := QueuedSendCanRun(mid, c);
    RunFollows(mid, runs, c);
    LaterStillLonger(s.conns[c].k.ran, mid.conns[c].k.ran, u.conns[c].k.ran);
    LeadsOn(s, queues, mid, runs, u);
    acts := queues + runs;
  }

  lemma LaterStillLonger(was: seq<Msg>, mid: seq<Msg>, now: seq<Msg>)
    requires was <= mid <= now && now != mid
    ensures now != was
  {
  }

  lemma SomeSendCanRun(s: State, c: ConnId) returns (acts: seq<Action>, u: State)
    requires Inv(s) && c in s.conns && !Silent(s, c)
    ensures Leads(s, acts, u) && c in u.conns && u.conns[c].k.ran != s.conns[c].k.ran
  {
    if Sends(s.Work(), c) != [] {
      acts, u := QueuedSendCanRun(s, c);
    } else {
      var t :| t in s.sending && s.sending[t].0 == c;
      acts, u := BegunSendCanRun(s, c, t);
    }
  }

  // ------------------------------------------------------------ the exact conditions

  /** Whatever happens, no further message runs. */
  ghost predicate NoMoreSends(s: State, c: ConnId)
    requires c in s.conns
  {
    forall acts: seq<Action> | Legal(s, acts) ::
      c in Run(s, acts).conns && Run(s, acts).conns[c].k.ran == s.conns[c].k.ran
  }

  /**
   * Once a connection refuses sends, the messages that ran are its last if and
   * only if no other thread is inside a send on it and none is queued for it.
   */
  lemma NoMoreSendsExactly(s: State, c: ConnId)
    requires Reachable(s) && c in s.conns && Refusing(s.conns[c].k)
    ensures NoMoreSends(s, c) <==> Silent(s, c)
  {
    ReachableIsInv(s);
    if Silent(s, c) {
      forall acts: seq<Action> | Legal(s, acts)
        ensures c in Run(s, acts).conns && Run(s, acts).conns[c].k.ran == s.conns[c].k.ran
      {
        RunSendsNothing(s, acts, c);
      }
    } else {
      var acts, u := SomeSendCanRun(s, c);
      assert Legal(s, acts);
    }
  }

  /** Whatever happens, write(2) is not called on the shut socket. */
  ghost predicate NeverWritesAfterFin(s: State, c: ConnId) {
    forall acts: seq<Action> | Legal(s, acts) ::
      c in Run(s, acts).conns && !Run(s, acts).conns[c].k.wroteAfterFin
  }

  /**
   * The half-close is graceful if and only if nothing is on its way: a thread
   * that is inside a send, or a queued send of whatever length, can still make
   * the loop thread write to the shut socket, and nothing else can.
   */
  lemma HalfCloseIsFinalExactly(s: State, c: ConnId)
    requires Reachable(s) && c in s.conns && 0 < s.conns[c].k.fins && !s.conns[c].k.sentAfterFin
    ensures NeverWritesAfterFin(s, c) <==> Silent(s, c)
  {
    ReachableIsInv(s);
    assert s.conns[c].k.Ok();
    if Silent(s, c) {
      forall acts: seq<Action> | Legal(s, acts)
        ensures c in Run(s, acts).conns && !Run(s, acts).conns[c].k.wroteAfterFin
      {
        WireIsFinal(s, acts, c);
      }
    } else {
      var acts, u := SomeSendCanRun(s, c);
      RunFollows(s, acts, c);
      assert Run(s, acts).conns[c].k.Ok();
    }
  }

  /** What a silent half-close leaves for good: one FIN, after the last byte of all that was accepted. */
  ghost predicate ShutForGood(e: Entry, wire: seq<byte>) {
    && e.k.fins == 1 && !e.k.wroteAfterFin
    && e.k.out == [] && e.k.wire == wire == Text(e.k.ran)
    && (forall t: Tid :: By(t, e.k.ran) == By(t, e.accepted))
  }

  lemma WireIsFinal(s: State, acts: seq<Action>, c: ConnId)
    requires Inv(s) && c in s.conns && 0 < s.conns[c].k.fins && !s.conns[c].k.sentAfterFin
    requires Silent(s, c) && Legal(s, acts)
    ensures c in Run(s, acts).conns && Run(s, acts).conns[c].accepted == s.conns[c].accepted
    ensures ShutForGood(Run(s, acts).conns[c], s.conns[c].k.wire)
  {
    RefusesAfterFin(s.conns[c].k);
    RunSendsNothing(s, acts, c);
    RunFollows(s, acts, c);
    FinIsLast(Run(s, acts), c);
    FinIsLast(s, c);
  }

  lemma RefusesAfterFin(k: Conn)
    requires k.Ok() && 0 < k.fins
    ensures Refusing(k)
  {
  }

  lemma FinIsLast(s: State, c: ConnId)
    requires Inv(s) && c in s.conns && 0 < s.conns[c].k.fins && !s.conns[c].k.sentAfterFin && Silent(s, c)
    ensures ShutForGood(s.conns[c], Text(s.conns[c].k.ran))
  {
    var e := s.conns[c];
    assert e.k.Ok() && QueueOk(c, e, s.Work());
    NothingAfterFin(e.k);
    forall t: Tid ensures By(t, e.k.ran) == By(t, e.accepted) {
      assert OrderKept(t, e, Sends(s.Work(), c));
      NothingAdded(By(t, e.k.ran));
    }
  }

  /**
   * What a caller of shutdown can check. If nothing is on its way at the call,
   * then in every run from there the messages run by the call are the last, the
   * write side is shut at most once, with all of them whole on the wire, and
   * nothing is written afterwards.
   */
  lemma GracefulHalfClose(s: State, acts: seq<Action>, c: ConnId)
    requires Reachable(s) && InUserCode(s) && c in s.conns && s.conns[c].k.state == Connected && Silent(s, c)
    requires Legal(Apply(s, ByUser(OwnShutdown(c))), acts)
    ensures c in Run(Apply(s, ByUser(OwnShutdown(c))), acts).conns
    ensures var e := Run(Apply(s, ByUser(OwnShutdown(c))), acts).conns[c];
            && SameMessages(e, s.conns[c]) && e.k.fins <= 1 && !e.k.wroteAfterFin
            && e.k.wire + e.k.out == Text(e.k.ran)
            && (e.k.fins == 1 ==> ShutForGood(e, Text(s.conns[c].k.ran)))
  {
    var t := Apply(s, ByUser(OwnShutdown(c)));
    ShutdownRefuses(s, c);
    ReachableStep(s, ByUser(OwnShutdown(c)));
    ReachableIsInv(t);
    RunSendsNothing(t, acts, c);
    RunFollows(t, acts, c);
    var u := Run(t, acts);
    assert u.conns[c].k.Ok();
    if u.conns[c].k.fins == 1 {
      FinIsLast(u, c);
    }
  }

  /** The call itself sends nothing and is sent nothing. */
  lemma ShutdownRefuses(s: State, c: ConnId)
    requires Reachable(s) && InUserCode(s) && c in s.conns && s.conns[c].k.state == Connected
    ensures var t := Apply(s, ByUser(OwnShutdown(c)));
            && c in t.conns && Refusing(t.conns[c].k) && SameMessages(t.conns[c], s.conns[c])
            && !t.conns[c].k.sentAfterFin
            && (s.conns[c].k.out == [] ==> t.conns[c].k.fins == 1)
            && (Silent(t, c) <==> Silent(s, c))
  {
    ReachableIsOk(s, c);
    ShutdownShuts(s.conns[c].k);
    ShutdownStep(s, c);
  }

  lemma ShutdownShuts(k: Conn)
    requires k.Ok() && k.state == Connected
    ensures var t := Shutdown(k);
            Refusing(t) && t.ran == k.ran && !t.sentAfterFin && (k.out == [] ==> t.fins == 1)
  {
  }

  lemma ShutdownStep(s: State, c: ConnId)
    requires InUserCode(s) && c in s.conns
    ensures var t := Apply(s, ByUser(OwnShutdown(c)));
            && c in t.conns && t.conns[c] == s.conns[c].(k := Shutdown(s.conns[c].k))
            && (Silent(t, c) <==> Silent(s, c))
  {
  }

  /**
   * And the condition is exact at the call: it decides whether the messages run
   * by then are the last; and, if the write side is shut at once because there is
   * no backlog, whether anything can be written afterwards.
   */
  lemma ShutdownIsFinalExactly(s: State, c: ConnId)
    requires Reachable(s) && InUserCode(s) && c in s.conns && s.conns[c].k.state == Connected
    ensures var t := Apply(s, ByUser(OwnShutdown(c)));
            && c in t.conns
            && (NoMoreSends(t, c) <==> Silent(s, c))
            && (s.conns[c].k.out == [] ==> (NeverWritesAfterFin(t, c) <==> Silent(s, c)))
  {
    var t := Apply(s, ByUser(OwnShutdown(c)));
    ShutdownRefuses(s, c);
    ReachableStep(s, ByUser(OwnShutdown(c)));
    NoMoreSendsExactly(t, c);
    if s.conns[c].k.out == [] {
      HalfCloseIsFinalExactly(t, c);
    }
  }

  /** Whatever happens, no send reaches the closed connection. */
  ghost predicate NeverSentLate(s: State, c: ConnId) {
    forall acts: seq<Action> | Legal(s, acts) ::
      c in Run(s, acts).conns && !Run(s, acts).conns[c].k.lateSend
  }

  /**
   * A close is the last word if and only if nothing is on its way when it happens.
   * Then, whatever follows, it is the only close, it is torn down at most once, no
   * assert fails and the connection is never in the kernel's set again.
   */
  lemma CloseIsFinalExactly(s: State, c: ConnId)
    requires Reachable(s) && c in s.conns && s.conns[c].k.state == Disconnected && !s.conns[c].k.lateSend
    ensures NeverSentLate(s, c) <==> Silent(s, c)
    ensures Silent(s, c) ==> forall acts: seq<Action> | Legal(s, acts) ::
              c in Run(s, acts).conns && ClosedForGood(Run(s, acts).conns[c].k)
  {
    ReachableIsInv(s);
    if Silent(s, c) {
      forall acts: seq<Action> | Legal(s, acts)
        ensures c in Run(s, acts).conns
        ensures ClosedForGood(Run(s, acts).conns[c].k) && !Run(s, acts).conns[c].k.lateSend
      {
        RunSendsNothing(s, acts, c);
        RunFollows(s, acts, c);
        StaysClosed(Run(s, acts), c);
      }
    } else {
      var acts, u := SomeSendCanRun(s, c);
      RunFollows(s, acts, c);
      assert Legal(s, acts);
    }
  }

  ghost predicate ClosedForGood(k: Conn) {
    k.closes <= 1 && k.destroyed <= 1 && !k.badAssert && k.reg.kernel.None?
  }

  lemma StaysClosed(s: State, c: ConnId)
    requires Inv(s) && c in s.conns && s.conns[c].k.state == Disconnected && !s.conns[c].k.lateSend
    ensures ClosedForGood(s.conns[c].k)
  {
    assert s.conns[c].k.Ok() && QueueOk(c, s.conns[c], s.Work());
  }

  // ------------------------------------------------------------ what a half-close covers

  /**
   * When the write side is shut, every message run by then is whole on the wire
   * and no byte is left behind. If none was run since, that is still the end of
   * the wire; and the wire then holds every accepted byte if and only if no byte
   * waits in the queue.
   */
  lemma FinCoversAcceptedExactly(s: State, c: ConnId)
    requires Reachable(s) && c in s.conns && 0 < s.conns[c].k.fins
    ensures Inv(s)
    ensures var e := s.conns[c];
            && e.k.finRan <= e.k.ran && e.k.finWire <= e.k.wire && e.k.finWire == Text(e.k.finRan)
            && (!e.k.sentAfterFin ==>
                  && e.k.fins == 1 && !e.k.wroteAfterFin
                  && e.k.out == [] && e.k.finRan == e.k.ran && e.k.finWire == e.k.wire
                  && (|e.k.wire| == Size(e.accepted) <==> Size(Sends(s.Work(), c)) == 0))
  {
    AcceptedBytesAccounted(s, c);
    var k := s.conns[c].k;
    assert k.Ok();
    if !k.sentAfterFin {
      NothingAfterFin(k);
    }
  }

  // ------------------------------------------------------------ connections of the loop thread alone

  /** No other thread begins a send on `c`. */
  ghost predicate OnlyOwnSends(acts: seq<Action>, c: ConnId) {
    forall a <- acts :: !ForeignSend(a, c)
  }

  ghost predicate LocalEntry(e: Entry) {
    e.k.ran == e.accepted && !e.k.sentAfterFin && !e.k.lateSend
  }

  ghost predicate Local(s: State, c: ConnId) {
    Silent(s, c) && (c in s.conns ==> LocalEntry(s.conns[c]))
  }

  lemma OtherKeepsLocal(s: State, a: Foreign, c: ConnId)
    requires EnabledOther(s, a) && Local(s, c)
    ensures var touch := OtherTouch(s, a); touch.Touched? && touch.c == c ==> LocalEntry(touch.e)
  {
  }

  lemma OwnKeepsLocal(s: State, a: Own, c: ConnId)
    requires EnabledOwn(s, a) && Local(s, c) && OkBefore(s, OwnTouch(s, a))
    ensures var touch := OwnTouch(s, a); touch.Touched? && touch.c == c ==> LocalEntry(touch.e)
  {
  }

  lemma TurnKeepsLocal(s: State, a: Turn, c: ConnId)
    requires EnabledTurn(s, a) && Local(s, c) && Running(s, a, s.Work())
    ensures var touch := TurnTouch(s, a); touch.Touched? && touch.c == c ==> LocalEntry(touch.e)
  {
  }

  lemma StepKeepsLocalEntry(s: State, a: Action, c: ConnId)
    requires LoopOk(s) && AllOk(s.conns) && Enabled(s, a) && Local(s, c)
    ensures c in Apply(s, a).conns ==> LocalEntry(Apply(s, a).conns[c])
  {
    RunsHeadOfWork(s, a);
    TouchKeepsLocal(s, a, c);
    StepTouches(s, a);
  }

  lemma TouchKeepsLocal(s: State, a: Action, c: ConnId)
    requires Enabled(s, a) && Local(s, c) && StepRuns(s, a, s.Work()) && AllOk(s.conns)
    ensures StepTouch(s, a).Touched? && StepTouch(s, a).c == c ==> LocalEntry(StepTouch(s, a).e)
  {
    match a
    case ByOther(other) => OtherKeepsLocal(s, other, c);
    case ByUser(own) => OwnKeepsLocal(s, own, c);
    case ByLoop(turn) => TurnKeepsLocal(s, turn, c);
  }

  lemma StepKeepsLocal(s: State, a: Action, c: ConnId)
    requires Inv(s) && Enabled(s, a) && Local(s, c) && !ForeignSend(a, c)
    ensures Local(Apply(s, a), c)
  {
    StepKeepsSilent(s, a, c);
    StepKeepsLocalEntry(s, a, c);
  }

  lemma {:induction false} RunKeepsLocal(s: State, acts: seq<Action>, c: ConnId)
    requires Inv(s) && Local(s, c) && Legal(s, acts) && OnlyOwnSends(acts, c)
    ensures Local(Run(s, acts), c) && Inv(Run(s, acts))
    decreases |acts|
  {
    if acts != [] {
      assert acts[0] in acts;
      StepKeepsLocal(s, acts[0], c);
      StepKeepsInv(s, acts[0]);
      RunKeepsLocal(Apply(s, acts[0]), acts[1..], c);
    }
  }

  /**
   * For a connection that other threads never send on this needs no condition at
   * any call; and then all its accepted messages are on the wire in one order.
   */
  lemma OwnSendsHalfCloseGracefully(acts: seq<Action>, c: ConnId)
    requires Legal(Start(), acts) && OnlyOwnSends(acts, c)
    requires c in Run(Start(), acts).conns
    ensures var e := Run(Start(), acts).conns[c];
            && e.k.fins <= 1 && !e.k.wroteAfterFin
            && (e.k.fins == 1 ==> e.k.wire == Text(e.accepted) && e.k.out == [])
            && e.k.wire + e.k.out == Text(e.accepted)
            && e.k.closes <= 1 && !e.k.badAssert
  {
    RunKeepsLocal(Start(), acts, c);
    var k := Run(Start(), acts).conns[c].k;
    assert k.Ok();
    if k.fins == 1 {
      NothingAfterFin(k);
    }
  }
}
