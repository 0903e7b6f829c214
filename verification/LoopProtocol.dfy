/**
 * EventLoop as a state machine: the loop thread, any number of other threads,
 * the functor queue under its mutex, and the eventfd. Every statement that
 * another thread can observe is a step of its own.
 */
module LoopProtocol {
  import opened Basics

  /** The largest value an eventfd counter can hold (eventfd(2)). */
  const EVENTFD_MAX: nat := 0xFFFF_FFFF_FFFF_FFFE

  /** Where the loop thread is. */
  datatype Pc =
    | Outside      // not in loop()
    | Testing      // at `while(!m_bquit)`
    | Polling      // in PollEvent
    | Dispatching  // m_beventHandling is true
    | Dispatched   // it is false again; m_doPendingFunctors not yet entered
    | Swapping     // m_callingPendingFunctors is true; the queue not yet taken
    | Between      // at the head of the functor loop
    | Calling      // inside tmpFunctors[i]

  /** A queued functor; `born` counts the swaps before it was queued. */
  datatype Job<T> = Job(functor: T, born: nat)

  datatype Loop<T> = Loop(
    pc: Pc,
    quit: bool,
    handling: bool,            // m_beventHandling
    calling: bool,             // m_callingPendingFunctors
    counter: nat,              // the eventfd
    pending: seq<Job<T>>,      // m_pendingFuntors
    batch: seq<Job<T>>,        // tmpFunctors
    next: nat,                 // i
    owing: set<Tid>,           // threads between their push or quit and the wakeup that follows it
    selfOwes: bool,            // the loop thread is there itself
    swaps: nat,
    pushed: seq<Job<T>>,       // every functor ever queued
    executed: seq<Job<T>>,     // every queued functor called
    ranIn: seq<nat>,           // and the number of the batch that called it
    stranded: bool             // the loop thread queued a functor while outside loop()
  ) {
    function Queue(): seq<Job<T>>
      requires next <= |batch|
    {
      batch[next..] + pending
    }
  }

  /** The functors of some jobs. */
  function Functors<T>(jobs: seq<Job<T>>): (fs: seq<T>)
    ensures |fs| == |jobs|
  {
    seq(|jobs|, i requires 0 <= i < |jobs| => jobs[i].functor)
  }

  lemma FunctorsSnoc<T>(jobs: seq<Job<T>>, j: Job<T>)
    ensures Functors(jobs + [j]) == Functors(jobs) + [j.functor]
  {
  }

  function Start<T>(): Loop<T> {
    Loop(Outside, false, false, false, 0, [], [], 0, {}, false, 0, [], [], [], false)
  }

  datatype Act<T> =
    | ForeignPush(t: Tid, f: T) | ForeignQuit(t: Tid) | ForeignWake(t: Tid)
    | OwnPush(f: T) | OwnQuit | OwnWake
    | Enter | Test | PollReturns | DrainWakeup | EndDispatch
    | BeginBatch | Swap | Call | Return | EndBatch

  /** May the loop thread run user code: handlers, callbacks, functors, or code before loop()? */
  predicate UserCode<T>(l: Loop<T>) {
    (l.pc == Outside || l.pc == Dispatching || l.pc == Calling) && !l.selfOwes
  }

  predicate Enabled<T>(l: Loop<T>, a: Act<T>) {
    match a
    case ForeignPush(t, _) => t !in l.owing
    case ForeignQuit(t) => t !in l.owing
    case ForeignWake(t) => t in l.owing
    case OwnPush(_) => UserCode(l)
    case OwnQuit => UserCode(l)
    case OwnWake => l.selfOwes
    case Enter => l.pc == Outside
    case Test => l.pc == Testing
    case PollReturns => l.pc == Polling
    case DrainWakeup => l.pc == Dispatching && !l.selfOwes
    case EndDispatch => l.pc == Dispatching && !l.selfOwes
    case BeginBatch => l.pc == Dispatched
    case Swap => l.pc == Swapping
    case Call => l.pc == Between && l.next < |l.batch|
    case Return => l.pc == Calling && !l.selfOwes
    case EndBatch => l.pc == Between && l.next == |l.batch|
  }

  function Push<T>(l: Loop<T>, f: T): Loop<T> {
    var job := Job(f, l.swaps);
    l.(pending := l.pending + [job], pushed := l.pushed + [job])
  }

  /** write(2) of one to a non-blocking eventfd: it fails rather than overflow, and then it is nonzero. */
  function Signal<T>(l: Loop<T>): Loop<T> {
    if l.counter < EVENTFD_MAX then l.(counter := l.counter + 1) else l
  }

  function Apply<T>(l: Loop<T>, a: Act<T>): Loop<T>
    requires Enabled(l, a)
  {
    match a
    case ForeignPush(t, f) => Push(l, f).(owing := l.owing + {t})
    case ForeignQuit(t) => l.(quit := true, owing := l.owing + {t})
    case ForeignWake(t) => Signal(l).(owing := l.owing - {t})
    case OwnPush(f) => Push(l, f).(selfOwes := l.calling, stranded := l.stranded || l.pc == Outside)
    case OwnQuit => l.(quit := true)
    case OwnWake => Signal(l).(selfOwes := false)
    case Enter => l.(pc := Testing, quit := false)
    case Test => l.(pc := if l.quit then Outside else Polling)
    case PollReturns => l.(pc := Dispatching, handling := true)
    case DrainWakeup => l.(counter := 0)
    case EndDispatch => l.(pc := Dispatched, handling := false)
    case BeginBatch => l.(pc := Swapping, calling := true)
    case Swap => l.(pc := Between, batch := l.pending, pending := [], next := 0, swaps := l.swaps + 1)
    case Call =>
      l.(pc := Calling, next := l.next + 1,
         executed := l.executed + [l.batch[l.next]], ranIn := l.ranIn + [l.swaps])
    case Return => l.(pc := Between)
    case EndBatch => l.(pc := Testing, calling := false, batch := [], next := 0)
  }

  ghost predicate Legal<T>(l: Loop<T>, acts: seq<Act<T>>)
    decreases |acts|
  {
    acts == [] || (Enabled(l, acts[0]) && Legal(Apply(l, acts[0]), acts[1..]))
  }

  ghost function Run<T>(l: Loop<T>, acts: seq<Act<T>>): Loop<T>
    requires Legal(l, acts)
    decreases |acts|
  {
    if acts == [] then l else Run(Apply(l, acts[0]), acts[1..])
  }

  // ------------------------------------------------------------ invariants

  /** The flags follow the program point. */
  ghost predicate FlagsOk<T>(l: Loop<T>) {
    && (l.handling <==> l.pc == Dispatching)
    && (l.calling <==> l.pc == Swapping || l.pc == Between || l.pc == Calling)
    && (l.selfOwes ==> l.pc == Calling)
    && l.next <= |l.batch|
    && (l.pc != Between && l.pc != Calling ==> l.batch == [])
  }

  /** Every functor ever queued was called once, is still to be called in this batch, or waits: in this order. */
  ghost predicate FifoOk<T>(l: Loop<T>) {
    && l.next <= |l.batch|
    && l.executed + l.Queue() == l.pushed
    && |l.ranIn| == |l.executed|
    && (forall i | 0 <= i < |l.executed| :: l.ranIn[i] == l.executed[i].born + 1 <= l.swaps)
    && (forall j <- l.batch :: j.born + 1 == l.swaps)
    && (forall j <- l.pending :: j.born == l.swaps)
  }

  /** Something will make the poll return: the eventfd is readable, or a thread is about to make it so. */
  ghost predicate Signalled<T>(l: Loop<T>) {
    0 < l.counter || l.owing != {} || l.selfOwes
  }

  /**
   * Phase by phase, because the eventfd is reset before the queue is taken:
   * between a poll and the next swap a queued functor needs no signal.
   */
  ghost predicate NoLostWakeup<T>(l: Loop<T>) {
    && (l.pending != [] && !(l.pc == Dispatching || l.pc == Dispatched || l.pc == Swapping) ==> Signalled(l))
    && (l.quit && l.pc == Polling ==> Signalled(l))
  }

  lemma ApplyKeepsFlags<T>(l: Loop<T>, a: Act<T>)
    requires FlagsOk(l) && Enabled(l, a)
    ensures FlagsOk(Apply(l, a))
  {
  }

  /** How one step moves the queue: a push appends, a call takes the first, nothing else changes it. */
  lemma ApplyOnQueue<T>(l: Loop<T>, a: Act<T>)
    requires FlagsOk(l) && Enabled(l, a)
    ensures FlagsOk(Apply(l, a))
    ensures var q, q' := l.Queue(), Apply(l, a).Queue();
            match a
            case ForeignPush(_, f) => q' == q + [Job(f, l.swaps)]
            case OwnPush(f) => q' == q + [Job(f, l.swaps)]
            case Call => q != [] && q[0] == l.batch[l.next] && q' == q[1..]
            case _ => q' == q
  {
    match a
    case ForeignPush(_, f) => Regroup(l.batch[l.next..], l.pending, [Job(f, l.swaps)]);
    case OwnPush(f) => Regroup(l.batch[l.next..], l.pending, [Job(f, l.swaps)]);
    case Call =>
      DropFirst(l.batch[l.next..], l.pending);
      assert l.batch[l.next..][1..] == l.batch[l.next + 1..];
    case Swap =>
      NothingAdded(l.pending);
      assert l.pending[0..] == l.pending;
    case _ =>
  }

  lemma ApplyKeepsFifo<T>(l: Loop<T>, a: Act<T>)
    requires FlagsOk(l) && FifoOk(l) && Enabled(l, a)
    ensures FifoOk(Apply(l, a))
  {
    ApplyOnQueue(l, a);
    var q := l.Queue();
    match a
    case ForeignPush(_, f) => Regroup(l.executed, q, [Job(f, l.swaps)]);
    case OwnPush(f) => Regroup(l.executed, q, [Job(f, l.swaps)]);
    case Call =>
      SplitFirst(q);
      Regroup(l.executed, [q[0]], q[1..]);
    case _ =>
  }

  lemma ApplyKeepsWakeup<T>(l: Loop<T>, a: Act<T>)
    requires FlagsOk(l) && Enabled(l, a)
    requires NoLostWakeup(l)
    requires a.OwnPush? ==> l.pc != Outside
    ensures NoLostWakeup(Apply(l, a))
  {
  }

  ghost predicate Inv<T>(l: Loop<T>) {
    && FlagsOk(l)
    && FifoOk(l)
    && (!l.stranded ==> NoLostWakeup(l))
  }

  lemma ApplyKeepsInv<T>(l: Loop<T>, a: Act<T>)
    requires Inv(l) && Enabled(l, a)
    ensures Inv(Apply(l, a))
  {
    ApplyKeepsFlags(l, a);
    ApplyKeepsFifo(l, a);
    if !Apply(l, a).stranded {
      ApplyKeepsWakeup(l, a);
    }
  }

  // ------------------------------------------------------------ whole runs

  lemma {:induction false} RunKeepsInv<T>(l: Loop<T>, acts: seq<Act<T>>)
    requires Inv(l) && Legal(l, acts)
    ensures Inv(Run(l, acts))
    decreases |acts|
  {
    if acts != [] {
      ApplyKeepsInv(l, acts[0]);
      RunKeepsInv(Apply(l, acts[0]), acts[1..]);
    }
  }

  /**
   * No lost wakeup and no lost quit, in every interleaving: a loop that sits in
   * its poll with an unreadable eventfd, while no thread still owes a wakeup,
   * has nothing queued and has not been asked to quit.
   */
  lemma NeverStallsWithWork<T>(acts: seq<Act<T>>)
    requires Legal(Start<T>(), acts)
    requires var l := Run(Start<T>(), acts);
             l.pc == Polling && l.counter == 0 && l.owing == {} && !l.stranded
    ensures var l := Run(Start<T>(), acts);
            l.pending == [] && !l.quit
  {
    RunKeepsInv(Start<T>(), acts);
  }

  /** Exactly once, in order: the calls made so far are the first of all pushes. */
  lemma CallsArePrefixOfPushes<T>(acts: seq<Act<T>>)
    requires Legal(Start<T>(), acts)
    ensures var l := Run(Start<T>(), acts);
            l.next <= |l.batch| && l.executed + (l.batch[l.next..] + l.pending) == l.pushed
  {
    RunKeepsInv(Start<T>(), acts);
  }

  lemma WhenCalled<T>(l: Loop<T>, i: nat)
    requires FlagsOk(l) && FifoOk(l) && i < |l.pushed|
    ensures i < |l.executed| ==> l.executed[i] == l.pushed[i] && i < |l.ranIn| && l.ranIn[i] == l.pushed[i].born + 1
    ensures l.pushed[i].born + 1 < l.swaps ==> i < |l.executed|
    ensures l.pushed[i].born < l.swaps && l.pc != Between && l.pc != Calling ==> i < |l.executed|
  {
    if i >= |l.executed| {
      var k, left := i - |l.executed|, |l.batch| - l.next;
      assert l.pushed[i] == l.Queue()[k];
      if k < left {
        assert l.pushed[i] == l.batch[l.next + k];
      } else {
        assert l.pushed[i] == l.pending[k - left];
      }
    }
  }

  /**
   * Which batch a functor runs in: never the one that was running when it was
   * queued, always the very next; so once that batch is over it has been called.
   */
  lemma RunsInTheNextBatch<T>(acts: seq<Act<T>>, i: nat)
    requires Legal(Start<T>(), acts)
    requires i < |Run(Start<T>(), acts).pushed|
    ensures var l := Run(Start<T>(), acts);
            && (i < |l.executed| ==>
                  l.executed[i] == l.pushed[i] && i < |l.ranIn| && l.ranIn[i] == l.pushed[i].born + 1)
            && (l.pushed[i].born + 1 < l.swaps ==> i < |l.executed|)
            && (l.pushed[i].born < l.swaps && l.pc != Between && l.pc != Calling ==> i < |l.executed|)
  {
    RunKeepsInv(Start<T>(), acts);
    WhenCalled(Run(Start<T>(), acts), i);
  }

  function Calls<T>(acts: seq<Act<T>>): nat {
    if acts == [] then 0 else (if acts[0].Call? then 1 else 0) + Calls(acts[1..])
  }

  /** A step inside a batch takes one functor further or leaves the batch alone. */
  lemma BatchStep<T>(l: Loop<T>, a: Act<T>)
    requires FlagsOk(l) && (l.pc == Between || l.pc == Calling) && Enabled(l, a) && !a.EndBatch?
    ensures var m := Apply(l, a);
            && m.batch == l.batch && m.next == l.next + (if a.Call? then 1 else 0)
            && (m.pc == Between || m.pc == Calling)
  {
  }

  /**
   * A batch ends even if every functor queues itself again: until it does, the
   * batch is the one that was taken, and only as many calls are left as it has functors left.
   */
  lemma {:induction false} BatchIsBounded<T>(l: Loop<T>, acts: seq<Act<T>>)
    requires FlagsOk(l) && (l.pc == Between || l.pc == Calling)
    requires Legal(l, acts) && forall a <- acts :: !a.EndBatch?
    ensures var m := Run(l, acts);
            && m.batch == l.batch && m.next == l.next + Calls(acts) <= |l.batch|
            && (m.pc == Between || m.pc == Calling)
    decreases |acts|
  {
    if acts != [] {
      assert acts[0] in acts;
      ApplyKeepsFlags(l, acts[0]);
      BatchStep(l, acts[0]);
      BatchIsBounded(Apply(l, acts[0]), acts[1..]);
    }
  }

  // ------------------------------------------------------------ entering loop()

  /** The loop thread queues nothing while it is outside loop(). */
  ghost predicate QueuesOnlyInside<T>(l: Loop<T>, acts: seq<Act<T>>)
    requires Legal(l, acts)
    decreases |acts|
  {
    acts == [] || ((acts[0].OwnPush? ==> l.pc != Outside) && QueuesOnlyInside(Apply(l, acts[0]), acts[1..]))
  }

  lemma {:induction false} WakeupKept<T>(l: Loop<T>, acts: seq<Act<T>>)
    requires FlagsOk(l) && NoLostWakeup(l)
    requires Legal(l, acts) && QueuesOnlyInside(l, acts)
    ensures NoLostWakeup(Run(l, acts))
    decreases |acts|
  {
    if acts != [] {
      ApplyKeepsFlags(l, acts[0]);
      ApplyKeepsWakeup(l, acts[0]);
      WakeupKept(Apply(l, acts[0]), acts[1..]);
    }
  }

  /** Every run that starts by entering loop() here keeps the wakeups. */
  ghost predicate EntryIsSafe<T(!new)>(l: Loop<T>)
    requires l.pc == Outside
  {
    forall acts: seq<Act<T>> | Legal(l, [Enter] + acts) && QueuesOnlyInside(l, [Enter] + acts) ::
      NoLostWakeup(Run(l, [Enter] + acts))
  }

  /** Entering is safe if and only if the queue is empty or its wakeup is written or on its way. */
  lemma EntryIsSafeExactly<T(!new)>(l: Loop<T>)
    requires FlagsOk(l) && l.pc == Outside
    ensures EntryIsSafe(l) <==> (l.pending != [] ==> Signalled(l))
  {
    if l.pending != [] && !Signalled(l) {
      var acts: seq<Act<T>> := [Enter, Test];
      assert [Enter] + acts[1..] == acts && acts[1..][1..] == [];
      var m := Apply(Apply(l, Enter), Test);
      assert Legal(m, []) && Legal(Apply(l, Enter), acts[1..]) && Legal(l, acts);
      assert QueuesOnlyInside(m, []) && QueuesOnlyInside(Apply(l, Enter), acts[1..]) && QueuesOnlyInside(l, acts);
      assert Run(m, []) == m && Run(Apply(l, Enter), acts[1..]) == m && Run(l, acts) == m;
      assert !NoLostWakeup(Run(l, [Enter] + acts[1..]));
    } else {
      forall acts: seq<Act<T>> | Legal(l, [Enter] + acts) && QueuesOnlyInside(l, [Enter] + acts)
        ensures NoLostWakeup(Run(l, [Enter] + acts))
      {
        assert NoLostWakeup(l);
        WakeupKept(l, [Enter] + acts);
      }
    }
  }

  /** A functor that the loop thread queued before loop() can wait out a poll: nothing made the eventfd readable. */
  lemma QueuedBeforeLoopStalls<T>(f: T)
    ensures var acts := [OwnPush(f), Enter, Test];
            Legal(Start<T>(), acts)
            && var l := Run(Start<T>(), acts); l.pc == Polling && l.pending != [] && !Signalled(l)
  {
    var acts := [OwnPush(f), Enter, Test];
    var l1 := Apply(Start<T>(), acts[0]);
    var l2 := Apply(l1, acts[1]);
    var l3 := Apply(l2, acts[2]);
    assert acts[1..][1..][1..] == [];
    assert Legal(l3, acts[1..][1..][1..]) && Legal(l2, acts[1..][1..]) && Legal(l1, acts[1..]);
    assert Run(l3, acts[1..][1..][1..]) == l3;
    assert Run(l2, acts[1..][1..]) == l3;
    assert Run(l1, acts[1..]) == l3;
  }

  // ------------------------------------------------------------ quit

  predicate Quits<T>(a: Act<T>) {
    a.ForeignQuit? || a.OwnQuit?
  }

  ghost predicate NoQuitIn<T(!new)>(acts: seq<Act<T>>) {
    forall a <- acts :: !Quits(a)
  }

  lemma StepOnQuit<T>(l: Loop<T>, a: Act<T>)
    requires Enabled(l, a) && !Quits(a)
    ensures Apply(l, a).quit == (l.quit && !a.Enter?)
  {
  }

  /** With no further quit, the request stands if and only if loop() is not entered. */
  lemma {:induction false} QuitStandsExactly<T(!new)>(l: Loop<T>, acts: seq<Act<T>>)
    requires Legal(l, acts) && NoQuitIn(acts)
    ensures Run(l, acts).quit <==> l.quit && forall a <- acts :: !a.Enter?
    decreases |acts|
  {
    if acts != [] {
      assert acts[0] in acts;
      StepOnQuit(l, acts[0]);
      QuitStandsExactly(Apply(l, acts[0]), acts[1..]);
    }
  }

  /** The next time the loop thread tests the flag, it leaves loop(); whoever quits besides. */
  ghost predicate QuitHonoured<T(!new)>(l: Loop<T>) {
    forall acts: seq<Act<T>>, m: Loop<T> | NextTest(l, acts, m) :: Apply(m, Act<T>.Test).pc == Outside
  }

  /** `m` is where `acts` take the loop thread: to a test of the flag, the first since `l`. */
  ghost predicate NextTest<T(!new)>(l: Loop<T>, acts: seq<Act<T>>, m: Loop<T>) {
    Legal(l, acts) && m == Run(l, acts) && m.pc == Testing && forall a <- acts :: !a.Test?
  }

  /** Inside loop() nothing but the test leads out, and nothing clears the flag. */
  lemma {:induction false} QuitWaitsForTest<T(!new)>(l: Loop<T>, acts: seq<Act<T>>)
    requires l.quit && l.pc != Outside && Legal(l, acts) && forall a <- acts :: !a.Test?
    ensures Run(l, acts).quit && Run(l, acts).pc != Outside
    decreases |acts|
  {
    if acts != [] {
      assert acts[0] in acts;
      var m := Apply(l, acts[0]);
      assert m.quit && m.pc != Outside;
      QuitWaitsForTest(m, acts[1..]);
    }
  }

  /**
   * A quit is honoured if and only if it is made inside loop(): in every
   * interleaving the next test then ends the loop. Before loop() it is lost,
   * for entering clears it, and the loop can go on to its poll.
   */
  lemma QuitIsHonouredExactly<T(!new)>(l: Loop<T>)
    requires l.quit
    ensures QuitHonoured(l) <==> l.pc != Outside
  {
    if l.pc == Outside {
      var acts: seq<Act<T>> := [Enter];
      var m := Apply(l, Enter);
      assert Legal(m, acts[1..]) && Run(m, acts[1..]) == m;
      assert NextTest(l, acts, m) && Apply(m, Act<T>.Test).pc == Polling;
    } else {
      forall acts: seq<Act<T>>, m: Loop<T> | NextTest(l, acts, m)
        ensures Apply(m, Act<T>.Test).pc == Outside
      {
        QuitWaitsForTest(l, acts);
      }
    }
  }
}
