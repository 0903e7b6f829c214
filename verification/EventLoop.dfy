/**
 * EventLoop's methods, one statement at a time. Beside its own fields the
 * object carries the state machine of LoopProtocol as a ghost: each statement
 * takes the step it stands for, so every execution of these methods is a run of
 * that machine. What other threads do between the statements is left to it.
 */
module EventLoops {
  import opened Basics
  import opened LoopProtocol

  /** Functors, and the threads that queue them. */
  type Arrivals<T> = seq<(Tid, T)>

  function Queued<T>(arrivals: Arrivals<T>): (fs: seq<T>)
    ensures |fs| == |arrivals|
  {
    seq(|arrivals|, i requires 0 <= i < |arrivals| => arrivals[i].1)
  }

  /** What is queued while a whole batch runs. */
  function QueuedDuring<T>(during: seq<Arrivals<T>>): seq<T> {
    if during == [] then []
    else QueuedDuring(during[..|during| - 1]) + Queued(during[|during| - 1])
  }

  /** How many of these calls are made by other threads. */
  function Foreign<T>(arrivals: Arrivals<T>, owner: Tid): nat {
    if |arrivals| == 0 then 0
    else Foreign(arrivals[..|arrivals| - 1], owner) + if arrivals[|arrivals| - 1].0 != owner then 1 else 0
  }

  /** An eventfd's counter after `n` writes of one: it stops short of overflow (eventfd(2)). */
  function Raised(counter: nat, n: nat): nat {
    if n == 0 || counter >= 0xFFFF_FFFF_FFFF_FFFE then counter
    else if counter + n <= 0xFFFF_FFFF_FFFF_FFFE then counter + n
    else 0xFFFF_FFFF_FFFF_FFFE
  }

  class EventLoop<T> {
    const threadId: Tid
    var looping: bool
    var quit: bool
    var eventHandling: bool
    var callingPendingFunctors: bool
    var pendingFunctors: seq<T>
    var wakeupCounter: nat           // the eventfd behind m_wakeupFd

    ghost var machine: Loop<T>
    ghost var acts: seq<Act<T>>

    /** The fields are what the machine says, and the machine got there by legal steps. */
    ghost predicate Valid()
      reads this
    {
      && looping == (machine.pc != Outside)
      && quit == machine.quit
      && eventHandling == machine.handling
      && callingPendingFunctors == machine.calling
      && pendingFunctors == Functors(machine.pending)
      && wakeupCounter == machine.counter
      && Reached(acts, machine)
      && FlagsOk(machine)
    }

    /** The functors called so far by doPendingFunctors, in order. */
    ghost function Executed(): seq<T>
      reads this
    {
      Functors(machine.executed)
    }

    constructor (threadId: Tid)
      ensures Valid() && machine == Start<T>() && this.threadId == threadId
    {
      this.threadId := threadId;
      looping, quit, eventHandling, callingPendingFunctors := false, false, false, false;
      pendingFunctors, wakeupCounter := [], 0;
      machine, acts := Start<T>(), [];
    }

    ghost method Take(a: Act<T>)
      requires Reached(acts, machine) && FlagsOk(machine) && Enabled(machine, a)
      modifies this`machine, this`acts
      ensures Reached(acts, machine) && FlagsOk(machine)
      ensures machine == Apply(old(machine), a) && acts == old(acts) + [a]
    {
      ReachedStep(acts, machine, a);
      ApplyKeepsFlags(machine, a);
      machine, acts := Apply(machine, a), acts + [a];
    }

    /** May this thread call queueInLoop or quit now? */
    ghost predicate MayCall(caller: Tid)
      reads this
    {
      if caller == threadId then UserCode(machine) else caller !in machine.owing
    }

    method Wakeup(caller: Tid)
      requires Valid()
      requires if caller == threadId then machine.selfOwes else caller in machine.owing
      modifies this`wakeupCounter, this`machine, this`acts
      ensures Valid() && 0 < wakeupCounter && wakeupCounter == Raised(old(wakeupCounter), 1)
      ensures machine == Apply(old(machine), if caller == threadId then OwnWake else ForeignWake(caller))
    {
      Take(if caller == threadId then OwnWake else ForeignWake(caller));
      if wakeupCounter < EVENTFD_MAX {
        wakeupCounter := wakeupCounter + 1;
      }
    }

    /** m_handleRead */
    method HandleRead()
      requires Valid() && machine.pc == Dispatching && !machine.selfOwes
      modifies this`wakeupCounter, this`machine, this`acts
      ensures Valid() && wakeupCounter == 0
      ensures machine == Apply(old(machine), DrainWakeup)
    {
      Take(DrainWakeup);
      wakeupCounter := 0;
    }

    method Quit(caller: Tid)
      requires Valid() && MayCall(caller)
      modifies this`quit, this`wakeupCounter, this`machine, this`acts
      ensures Valid() && quit
      ensures wakeupCounter == Raised(old(wakeupCounter), if caller == threadId then 0 else 1)
      ensures caller != threadId ==> 0 < wakeupCounter
      ensures machine == QuitCall(old(machine), caller == threadId, caller)
    {
      quit := true;
      Take(if caller == threadId then OwnQuit else ForeignQuit(caller));
      if caller != threadId {
        Wakeup(caller);
      }
    }

    /** Appended under the mutex; a wakeup follows from any other thread, and from this one while a batch runs. */
    method QueueInLoop(caller: Tid, cb: T)
      requires Valid() && MayCall(caller)
      modifies this`pendingFunctors, this`wakeupCounter, this`machine, this`acts
      ensures Valid() && MayCall(caller)
      ensures pendingFunctors == old(pendingFunctors) + [cb] && Executed() == old(Executed())
      ensures caller != threadId || callingPendingFunctors ==> 0 < wakeupCounter
      ensures wakeupCounter ==
              Raised(old(wakeupCounter), if caller != threadId || callingPendingFunctors then 1 else 0)
      ensures SameButQueue(machine, old(machine))
      ensures machine == QueueCall(old(machine), caller == threadId, caller, cb)
    {
      pendingFunctors := pendingFunctors + [cb];
      Take(if caller == threadId then OwnPush(cb) else ForeignPush(caller, cb));
      FunctorsSnoc(old(machine.pending), Job(cb, machine.swaps));
      if caller != threadId || callingPendingFunctors {
        Wakeup(caller);
      }
      QueueCallFacts(old(machine), caller == threadId, caller, cb);
    }

    /** The lines of loop() before its while. */
    method EnterLoop()
      requires Valid() && !looping
      modifies this`looping, this`quit, this`machine, this`acts
      ensures Valid() && looping && !quit && machine == Apply(old(machine), Enter)
      ensures pendingFunctors == old(pendingFunctors) && Executed() == old(Executed())
    {
      looping := true;
      quit := false;
      Take(Enter);
    }

    /**
     * One turn of loop()'s while: leave if told to quit; else poll, let the
     * handlers run, and call everything that was queued up to then.
     */
    method LoopOnce(wakeupActive: bool, inHandlers: Arrivals<T>, during: seq<Arrivals<T>>) returns (again: bool)
      requires Valid() && machine.pc == Testing
      requires |during| == |pendingFunctors| + |inHandlers|
      requires forall a <- inHandlers :: a.0 == threadId || a.0 !in machine.owing
      requires forall i | 0 <= i < |during| :: forall a <- during[i] :: a.0 == threadId || a.0 !in machine.owing
      modifies this
      ensures Valid() && again == !old(quit) == looping && quit == old(quit)
      ensures !again ==> pendingFunctors == old(pendingFunctors) && Executed() == old(Executed())
      ensures again ==> machine.pc == Testing
      ensures again ==> Executed() == old(Executed()) + old(pendingFunctors) + Queued(inHandlers)
      ensures again ==> pendingFunctors == QueuedDuring(during)
      ensures again && pendingFunctors != [] ==> 0 < wakeupCounter
      ensures wakeupCounter ==
              if again then Raised(if wakeupActive then 0 else old(wakeupCounter),
                                   Foreign(inHandlers, threadId) + |QueuedDuring(during)|)
              else old(wakeupCounter)
      ensures again && wakeupActive && inHandlers == [] && pendingFunctors == [] ==> wakeupCounter == 0
    {
      again := !quit;
      Take(LoopProtocol.Act.Test);
      if !again {
        looping := false;
        return;
      }
      PollAndDispatch(wakeupActive, inHandlers);
      DoPendingFunctors(during);
      Regroup(old(Executed()), old(pendingFunctors), Queued(inHandlers));
    }

    /** The poll returns, perhaps with the wakeup handler among the active ones, and the handlers run. */
    method PollAndDispatch(wakeupActive: bool, inHandlers: Arrivals<T>)
      requires Valid() && machine.pc == Polling
      requires forall a <- inHandlers :: a.0 == threadId || a.0 !in machine.owing
      modifies this`eventHandling, this`pendingFunctors, this`wakeupCounter, this`machine, this`acts
      ensures Valid() && machine.pc == Dispatched && !eventHandling
      ensures pendingFunctors == old(pendingFunctors) + Queued(inHandlers) && Executed() == old(Executed())
      ensures machine.owing == old(machine.owing)
      ensures wakeupCounter == Raised(if wakeupActive then 0 else old(wakeupCounter), Foreign(inHandlers, threadId))
    {
      BeginHandling(wakeupActive);
      QueueAll(inHandlers);
      EndHandling();
    }

    /** The dispatch flag is set, and the eventfd read if it was reported. */
    method BeginHandling(wakeupActive: bool)
      requires Valid() && machine.pc == Polling
      modifies this`eventHandling, this`wakeupCounter, this`machine, this`acts
      ensures Valid() && machine.pc == Dispatching && UserCode(machine)
      ensures wakeupCounter == if wakeupActive then 0 else old(wakeupCounter)
      ensures Executed() == old(Executed()) && machine.owing == old(machine.owing)
    {
      eventHandling := true;
      Take(PollReturns);
      if wakeupActive {
        HandleRead();
      }
    }

    method EndHandling()
      requires Valid() && machine.pc == Dispatching && !machine.selfOwes
      modifies this`eventHandling, this`machine, this`acts
      ensures Valid() && machine.pc == Dispatched && !eventHandling
      ensures Executed() == old(Executed()) && machine.owing == old(machine.owing)
    {
      eventHandling := false;
      Take(EndDispatch);
    }

    /**
     * One batch. `during[i]` is queued by whatever threads while the i-th functor
     * runs: the batch calls what was queued before the swap, once each and in
     * order, and leaves exactly the rest.
     */
    method DoPendingFunctors(during: seq<Arrivals<T>>)
      requires Valid() && machine.pc == Dispatched
      requires |during| == |pendingFunctors|
      requires forall i | 0 <= i < |during| :: forall a <- during[i] :: a.0 == threadId || a.0 !in machine.owing
      modifies this`callingPendingFunctors, this`pendingFunctors, this`wakeupCounter, this`machine, this`acts
      ensures Valid() && machine.pc == Testing && !callingPendingFunctors
      ensures Executed() == old(Executed()) + old(pendingFunctors)
      ensures pendingFunctors == QueuedDuring(during)
      ensures pendingFunctors != [] ==> 0 < wakeupCounter
      ensures wakeupCounter == Raised(old(wakeupCounter), |QueuedDuring(during)|)
      ensures machine.owing == old(machine.owing) && machine.swaps == old(machine.swaps) + 1
    {
      var tmpFunctors := TakeQueue();
      CallBatch(tmpFunctors, during);
      callingPendingFunctors := false;
      Take(EndBatch);
    }

    /** m_callingPendingFunctors is set, and the queue swapped out under the mutex. */
    method TakeQueue() returns (tmpFunctors: seq<T>)
      requires Valid() && machine.pc == Dispatched
      modifies this`callingPendingFunctors, this`pendingFunctors, this`machine, this`acts
      ensures Valid() && machine.pc == Between && callingPendingFunctors && pendingFunctors == []
      ensures tmpFunctors == old(pendingFunctors) == Functors(machine.batch) && machine.next == 0
      ensures Executed() == old(Executed())
      ensures machine.owing == old(machine.owing) && machine.swaps == old(machine.swaps) + 1
    {
      callingPendingFunctors := true;
      Take(BeginBatch);
      tmpFunctors, pendingFunctors := pendingFunctors, [];
      Take(Swap);
    }

    method CallBatch(tmpFunctors: seq<T>, during: seq<Arrivals<T>>)
      requires Valid() && machine.pc == Between && pendingFunctors == []
      requires tmpFunctors == Functors(machine.batch) && machine.next == 0 && |during| == |tmpFunctors|
      requires forall i | 0 <= i < |during| :: forall a <- during[i] :: a.0 == threadId || a.0 !in machine.owing
      modifies this`pendingFunctors, this`wakeupCounter, this`machine, this`acts
      ensures Valid() && machine.pc == Between && machine.next == |machine.batch|
      ensures Executed() == old(Executed()) + tmpFunctors
      ensures pendingFunctors == QueuedDuring(during)
      ensures pendingFunctors != [] ==> 0 < wakeupCounter
      ensures wakeupCounter == Raised(old(wakeupCounter), |QueuedDuring(during)|)
      ensures machine.owing == old(machine.owing) && machine.swaps == old(machine.swaps)
    {
      ghost var before := Executed();
      ghost var owing := machine.owing;
      var i := 0;
      while i < |tmpFunctors|
        invariant 0 <= i <= |tmpFunctors|
        invariant Valid() && machine.pc == Between && machine.next == i
        invariant Functors(machine.batch) == tmpFunctors
        invariant Executed() == before + tmpFunctors[..i]
        invariant pendingFunctors == QueuedDuring(during[..i])
        invariant pendingFunctors != [] ==> 0 < wakeupCounter
        invariant wakeupCounter == Raised(old(wakeupCounter), |QueuedDuring(during[..i])|)
        invariant machine.owing == owing && machine.swaps == old(machine.swaps)
      {
        assert tmpFunctors[..i + 1] == tmpFunctors[..i] + [tmpFunctors[i]];
        Regroup(before, tmpFunctors[..i], [tmpFunctors[i]]);
        assert during[..i + 1][..i] == during[..i];
        CallFunctor(tmpFunctors[i], during[i]);
        i := i + 1;
      }
      assert tmpFunctors[..i] == tmpFunctors && during[..i] == during;
    }

    /** `tmpFunctors[i]()`, and what is queued before it returns. */
    method CallFunctor(f: T, arrivals: Arrivals<T>)
      requires Valid() && machine.pc == Between
      requires machine.next < |machine.batch| && machine.batch[machine.next].functor == f
      requires forall a <- arrivals :: a.0 == threadId || a.0 !in machine.owing
      modifies this`pendingFunctors, this`wakeupCounter, this`machine, this`acts
      ensures Valid() && machine.pc == Between
      ensures Executed() == old(Executed()) + [f] && pendingFunctors == old(pendingFunctors) + Queued(arrivals)
      ensures machine.batch == old(machine.batch) && machine.next == old(machine.next) + 1
      ensures machine.owing == old(machine.owing) && machine.swaps == old(machine.swaps)
      ensures wakeupCounter == Raised(old(wakeupCounter), |arrivals|) && (arrivals != [] ==> 0 < wakeupCounter)
    {
      FunctorsSnoc(machine.executed, machine.batch[machine.next]);
      Take(LoopProtocol.Act.Call);
      QueueAll(arrivals);
      Take(Return);
    }

    /** The queueInLoop calls made while one functor runs. */
    method QueueAll(arrivals: Arrivals<T>)
      requires Valid() && (machine.pc == Dispatching || machine.pc == Calling) && UserCode(machine)
      requires forall a <- arrivals :: a.0 == threadId || a.0 !in machine.owing
      modifies this`pendingFunctors, this`wakeupCounter, this`machine, this`acts
      ensures Valid() && UserCode(machine) && SameButQueue(machine, old(machine))
      ensures pendingFunctors == old(pendingFunctors) + Queued(arrivals) && Executed() == old(Executed())
      ensures callingPendingFunctors && arrivals != [] ==> 0 < wakeupCounter
      ensures wakeupCounter ==
              Raised(old(wakeupCounter), if callingPendingFunctors then |arrivals| else Foreign(arrivals, threadId))
    {
      for i := 0 to |arrivals|
        invariant Valid() && UserCode(machine) && SameButQueue(machine, old(machine))
        invariant pendingFunctors == old(pendingFunctors) + Queued(arrivals[..i]) && Executed() == old(Executed())
        invariant callingPendingFunctors && 0 < i ==> 0 < wakeupCounter
        invariant wakeupCounter ==
                  Raised(old(wakeupCounter), if callingPendingFunctors then i else Foreign(arrivals[..i], threadId))
      {
        assert arrivals[i] in arrivals;
        assert Queued(arrivals[..i + 1]) == Queued(arrivals[..i]) + [arrivals[i].1];
        Regroup(old(pendingFunctors), Queued(arrivals[..i]), [arrivals[i].1]);
        assert arrivals[..i + 1][..i] == arrivals[..i];
        QueueInLoop(arrivals[i].0, arrivals[i].1);
      }
      assert arrivals[..|arrivals|] == arrivals;
    }
  }

  ghost predicate Reached<T>(acts: seq<Act<T>>, l: Loop<T>) {
    Legal(Start<T>(), acts) && l == Run(Start<T>(), acts)
  }

  lemma ReachedStep<T>(acts: seq<Act<T>>, l: Loop<T>, a: Act<T>)
    requires Reached(acts, l) && Enabled(l, a)
    ensures Reached(acts + [a], Apply(l, a))
  {
    RunSnoc(Start<T>(), acts, a);
  }

  lemma {:induction false} RunSnoc<T>(l: Loop<T>, acts: seq<Act<T>>, a: Act<T>)
    requires Legal(l, acts) && Enabled(Run(l, acts), a)
    ensures Legal(l, acts + [a]) && Run(l, acts + [a]) == Apply(Run(l, acts), a)
    decreases |acts|
  {
    if acts == [] {
      assert acts + [a] == [a] && [a][1..] == [];
      assert Legal(Apply(l, a), [a][1..]) && Run(Apply(l, a), [a][1..]) == Apply(l, a);
    } else {
      assert (acts + [a])[1..] == acts[1..] + [a];
      RunSnoc(Apply(l, acts[0]), acts[1..], a);
    }
  }

  /** A queueInLoop call that nothing interrupts: the push, then the wakeup if one is owed. */
  function QueueCall<T>(l: Loop<T>, own: bool, t: Tid, f: T): Loop<T>
    requires if own then UserCode(l) else t !in l.owing
  {
    if own then
      var pushed := Apply(l, OwnPush(f));
      if pushed.selfOwes then Apply(pushed, OwnWake) else pushed
    else Apply(Apply(l, ForeignPush(t, f)), ForeignWake(t))
  }

  /** The same for a call of quit. */
  function QuitCall<T>(l: Loop<T>, own: bool, t: Tid): Loop<T>
    requires if own then UserCode(l) else t !in l.owing
  {
    if own then Apply(l, OwnQuit) else Apply(Apply(l, ForeignQuit(t)), ForeignWake(t))
  }

  lemma QueueCallFacts<T>(l: Loop<T>, own: bool, t: Tid, f: T)
    requires if own then UserCode(l) else t !in l.owing
    ensures var m := QueueCall(l, own, t, f);
            && SameButQueue(m, l)
            && m.pending == l.pending + [Job(f, l.swaps)] && m.pushed == l.pushed + [Job(f, l.swaps)]
            && m.counter == (if own && !l.calling then l.counter else Signal(l).counter)
            && (own && l.pc == Outside ==> m.stranded)
            && (!own || l.pc != Outside ==> m.stranded == l.stranded)
  {
    if own {
      OwnQueueCall(l, f);
    } else {
      ForeignQueueCall(l, t, f);
    }
  }

  lemma OwnQueueCall<T>(l: Loop<T>, f: T)
    requires UserCode(l)
    ensures QueueCall(l, true, 0, f) == Push(l, f).(stranded := l.stranded || l.pc == Outside,
                                                   counter := if l.calling then Signal(l).counter else l.counter)
  {
  }

  lemma ForeignQueueCall<T>(l: Loop<T>, t: Tid, f: T)
    requires t !in l.owing
    ensures QueueCall(l, false, t, f) == Push(l, f).(counter := Signal(l).counter)
  {
    assert l.owing + {t} - {t} == l.owing;
  }

  /** Only the queue, its history and the eventfd moved. */
  ghost predicate SameButQueue<T>(l: Loop<T>, m: Loop<T>) {
    && l.pc == m.pc && l.quit == m.quit && l.handling == m.handling && l.calling == m.calling
    && l.batch == m.batch && l.next == m.next && l.owing == m.owing && l.selfOwes == m.selfOwes
    && l.swaps == m.swaps && l.executed == m.executed && l.ranIn == m.ranIn
  }
}
