/** How often a connection's write-complete callback is queued, and called, over a whole run. */
module ReactorCompletions {
  import opened Basics
  import opened Connection
  import opened Reactor
  import opened ReactorInvariant
  import opened ReactorProgress
  import opened ReactorSteps
  import opened ReactorTheorems
  import L = LoopProtocol

  /** A message written whole at once, on a connection that wants to know. */
  predicate WrittenAtOnce(k: Conn, m: Msg, w: int) {
    k.notify && k.Direct() && w == |m.bytes|
  }

  /** The rest of a backlog written. */
  predicate WrittenOut(k: Conn, w: int) {
    k.notify && k.reg.IsWriting() && 0 < w == |k.out|
  }

  /** The step hands the kernel the last byte that `c` was given. */
  predicate Delivers(s: State, a: Action, c: ConnId)
    requires Enabled(s, a)
  {
    match a
    case ByUser(OwnSend(d, bytes, w)) =>
      d == c && s.conns[c].k.state == Connected && WrittenAtOnce(s.conns[c].k, Msg(OWNER, bytes), w)
    case ByLoop(OnWrite(w)) =>
      s.active[s.at].conn == c && s.active[s.at].revents.out && WrittenOut(s.conns[c].k, w)
    case ByLoop(Body(w)) =>
      var f := s.body.value;
      f.SendLater? && f.conn == c && c in s.conns && WrittenAtOnce(s.conns[c].k, f.msg, w)
    case _ => false
  }

  /** How many steps of the run do. */
  ghost function Deliveries(s: State, acts: seq<Action>, c: ConnId): nat
    requires Legal(s, acts)
    decreases |acts|
  {
    if acts == [] then 0
    else (if Delivers(s, acts[0], c) then 1 else 0) + Deliveries(Apply(s, acts[0]), acts[1..], c)
  }

  // ------------------------------------------------------------ a completion for each

  /** What the step hands to queueInLoop, if anything. */
  function Pushes(act: Option<L.Act<Functor>>): Option<Functor> {
    match act
    case Some(ForeignPush(_, f)) => Some(f)
    case Some(OwnPush(f)) => Some(f)
    case _ => None
  }

  lemma OwnCompletes(s: State, a: Own, c: ConnId)
    requires InUserCode(s) && EnabledOwn(s, a)
    ensures Pushes(OwnAct(s, a)) == Some(WriteComplete(c)) <==> Delivers(s, ByUser(a), c)
  {
  }

  lemma TurnCompletes(s: State, a: Turn, c: ConnId)
    requires EnabledTurn(s, a)
    ensures Pushes(TurnAct(s, a)) == Some(WriteComplete(c)) <==> Delivers(s, ByLoop(a), c)
  {
  }

  lemma StepCompletes(s: State, a: Action, c: ConnId)
    requires Enabled(s, a)
    ensures Pushes(LoopAct(s, a)) == Some(WriteComplete(c)) <==> Delivers(s, a, c)
  {
    match a
    case ByOther(other) =>
    case ByUser(own) => OwnCompletes(s, own, c);
    case ByLoop(turn) => TurnCompletes(s, turn, c);
  }

  lemma ApplyPushes(l: L.Loop<Functor>, act: L.Act<Functor>)
    requires L.Enabled(l, act)
    ensures L.Apply(l, act).pushed ==
            match act
            case ForeignPush(_, f) => l.pushed + [L.Job(f, l.swaps)]
            case OwnPush(f) => l.pushed + [L.Job(f, l.swaps)]
            case _ => l.pushed
  {
  }

  lemma PushedGrows(l: L.Loop<Functor>, act: Option<L.Act<Functor>>, after: L.Loop<Functor>)
    requires Projects(l, act, after)
    ensures L.Functors(after.pushed) == Grown(L.Functors(l.pushed), act)
  {
    if act.Some? {
      ApplyPushes(l, act.value);
      match act.value
      case ForeignPush(_, f) => L.FunctorsSnoc(l.pushed, L.Job(f, l.swaps));
      case OwnPush(f) => L.FunctorsSnoc(l.pushed, L.Job(f, l.swaps));
      case _ =>
    }
  }

  lemma GrownCounts(work: seq<Functor>, act: Option<L.Act<Functor>>, f: Functor)
    ensures Count(Grown(work, act), f) == Count(work, f) + if Pushes(act) == Some(f) then 1 else 0
  {
    if Pushes(act).Some? {
      CountSnoc(work, Pushes(act).value, f);
    }
  }

  /** The completions of `c` that were ever queued. */
  ghost function Completions(l: L.Loop<Functor>, c: ConnId): nat {
    Count(L.Functors(l.pushed), WriteComplete(c))
  }

  lemma StepCounts(s: State, a: Action, c: ConnId)
    requires Enabled(s, a)
    ensures Completions(Apply(s, a).loop, c) == Completions(s.loop, c) + if Delivers(s, a, c) then 1 else 0
  {
    StepProjects(s, a);
    PushedGrows(s.loop, LoopAct(s, a), Apply(s, a).loop);
    GrownCounts(L.Functors(s.loop.pushed), LoopAct(s, a), WriteComplete(c));
    StepCompletes(s, a, c);
  }

  lemma {:induction false} RunCounts(s: State, acts: seq<Action>, c: ConnId)
    requires Legal(s, acts)
    ensures Completions(Run(s, acts).loop, c) == Completions(s.loop, c) + Deliveries(s, acts, c)
    decreases |acts|
  {
    if acts != [] {
      StepCounts(s, acts[0], c);
      RunCounts(Apply(s, acts[0]), acts[1..], c);
    }
  }

  /** The completions of `c` that were called. */
  ghost function Called(l: L.Loop<Functor>, c: ConnId): nat {
    Count(L.Functors(l.executed), WriteComplete(c))
  }

  /**
   * Over every run, exactly one completion is queued for each time the last byte
   * given so far reaches the kernel; and when nothing is left to be run, the
   * callback was called that often.
   */
  lemma OneCompletionPerDelivery(acts: seq<Action>, c: ConnId)
    requires Legal(Start(), acts)
    ensures var s := Run(Start(), acts);
            && Completions(s.loop, c) == Deliveries(Start(), acts, c)
            && (Drained(s) ==> Called(s.loop, c) == Deliveries(Start(), acts, c))
  {
    var s := Run(Start(), acts);
    RunCounts(Start(), acts, c);
    NothingPushedYet(c);
    if Drained(s) {
      AllCalled(s);
    }
  }

  lemma NothingPushedYet(c: ConnId)
    ensures Completions(Start().loop, c) == 0
  {
    assert |L.Functors(Start().loop.pushed)| == 0;
  }

  lemma AllCalled(s: State)
    requires Drained(s)
    ensures s.loop.executed == s.loop.pushed
  {
    assert |L.Functors(s.loop.Queue())| == |s.loop.Queue()|;
    assert s.loop.Queue() == [];
    NothingAdded(s.loop.executed);
  }

  // ------------------------------------------------------------ and what it tells

  lemma DeliveredLeavesNothing(s: State, a: Action, c: ConnId)
    requires Enabled(s, a) && Delivers(s, a, c)
    ensures StepTouch(s, a).Touched? && StepTouch(s, a).c == c && StepTouch(s, a).e.k.out == []
  {
    match a
    case ByLoop(OnWrite(w)) => WrittenOutLeavesNothing(s.conns[c].k, w);
    case _ =>
  }

  lemma WrittenOutLeavesNothing(k: Conn, w: int)
    requires WrittenOut(k, w)
    ensures HandleWrite(k, w).conn.out == []
  {
    assert k.out[w..] == [];
  }

  /** At each of these instants the wire holds every byte the connection was given. */
  lemma DeliveryIsComplete(s: State, a: Action, c: ConnId)
    requires Reachable(s) && Enabled(s, a) && Delivers(s, a, c)
    ensures c in Apply(s, a).conns
    ensures var k := Apply(s, a).conns[c].k;
            k.out == [] && k.wire == Text(k.ran)
  {
    DeliveredLeavesNothing(s, a, c);
    StepTouches(s, a);
    ReachableStep(s, a);
    ReachableIsOk(Apply(s, a), c);
    NothingAdded(Apply(s, a).conns[c].k.wire);
  }
}
