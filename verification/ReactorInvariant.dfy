/** What every step of the reactor keeps. */
module ReactorInvariant {
  import opened Basics
  import opened Connection
  import opened Reactor
  import L = LoopProtocol

  // ------------------------------------------------------------ messages

  /** The messages of one thread. */
  function By(t: Tid, msgs: seq<Msg>): seq<seq<byte>> {
    if |msgs| == 0 then []
    else By(t, msgs[..|msgs| - 1]) + if msgs[|msgs| - 1].from == t then [msgs[|msgs| - 1].bytes] else []
  }

  lemma BySnoc(t: Tid, msgs: seq<Msg>, m: Msg)
    ensures By(t, msgs + [m]) == By(t, msgs) + if m.from == t then [m.bytes] else []
  {
    assert (msgs + [m])[..|msgs|] == msgs;
  }

  lemma {:induction false} ByAppend(t: Tid, msgs: seq<Msg>, more: seq<Msg>)
    ensures By(t, msgs + more) == By(t, msgs) + By(t, more)
  {
    if more == [] {
      assert msgs + more == msgs;
    } else {
      var init, last := more[..|more| - 1], more[|more| - 1];
      SplitLast(msgs, more);
      ByAppend(t, msgs, init);
      BySnoc(t, msgs + init, last);
    }
  }

  /** How many bytes the messages have. */
  function Size(msgs: seq<Msg>): nat {
    if |msgs| == 0 then 0 else Size(msgs[..|msgs| - 1]) + |msgs[|msgs| - 1].bytes|
  }

  lemma SizeSnoc(msgs: seq<Msg>, m: Msg)
    ensures Size(msgs + [m]) == Size(msgs) + |m.bytes|
  {
    assert (msgs + [m])[..|msgs|] == msgs;
  }

  lemma {:induction false} SizeAppend(msgs: seq<Msg>, more: seq<Msg>)
    ensures Size(msgs + more) == Size(msgs) + Size(more)
  {
    if more == [] {
      assert msgs + more == msgs;
    } else {
      var init, last := more[..|more| - 1], more[|more| - 1];
      SplitLast(msgs, more);
      SizeAppend(msgs, init);
      SizeSnoc(msgs + init, last);
    }
  }

  lemma {:induction false} SizeIsTextLength(msgs: seq<Msg>)
    ensures Size(msgs) == |Text(msgs)|
  {
    if msgs != [] {
      var init, last := msgs[..|msgs| - 1], msgs[|msgs| - 1];
      SizeIsTextLength(init);
      TextSnoc(init, last);
      assert msgs == init + [last];
    }
  }

  /** The sends to one connection that wait in the queue. */
  function Sends(work: seq<Functor>, c: ConnId): seq<Msg> {
    if |work| == 0 then [] else SendOf(work[0], c) + Sends(work[1..], c)
  }

  function SendOf(f: Functor, c: ConnId): seq<Msg> {
    if f.SendLater? && f.conn == c then [f.msg] else []
  }

  lemma {:induction false} SendsSnoc(work: seq<Functor>, f: Functor, c: ConnId)
    ensures Sends(work + [f], c) == Sends(work, c) + SendOf(f, c)
    ensures SendOf(f, c) == [] ==> Sends(work + [f], c) == Sends(work, c)
  {
    if work == [] {
      assert [f][1..] == [];
      assert Sends([f], c) == SendOf(f, c) + Sends([], c);
    } else {
      assert (work + [f])[1..] == work[1..] + [f];
      SendsSnoc(work[1..], f, c);
      assert SendOf(work[0], c) + (Sends(work[1..], c) + SendOf(f, c))
          == (SendOf(work[0], c) + Sends(work[1..], c)) + SendOf(f, c);
    }
  }

  /** How often a functor waits in the queue. */
  function Count(work: seq<Functor>, f: Functor): nat {
    if |work| == 0 then 0 else (if work[0] == f then 1 else 0) + Count(work[1..], f)
  }

  lemma {:induction false} CountSnoc(work: seq<Functor>, last: Functor, f: Functor)
    ensures Count(work + [last], f) == Count(work, f) + if last == f then 1 else 0
  {
    if work == [] {
      assert [last][1..] == [];
    } else {
      assert (work + [last])[1..] == work[1..] + [last];
      CountSnoc(work[1..], last, f);
    }
  }

  /** What a functor at the end of the queue adds to what is known of `c`. */
  lemma Snoc(work: seq<Functor>, f: Functor, c: ConnId)
    ensures Sends(work + [f], c) == Sends(work, c) + SendOf(f, c)
    ensures SendOf(f, c) == [] ==> Sends(work + [f], c) == Sends(work, c)
    ensures Count(work + [f], Established(c)) == Count(work, Established(c)) + if f == Established(c) then 1 else 0
    ensures Count(work + [f], Destroyed(c)) == Count(work, Destroyed(c)) + if f == Destroyed(c) then 1 else 0
  {
    SendsSnoc(work, f, c);
    CountSnoc(work, f, Established(c));
    CountSnoc(work, f, Destroyed(c));
  }

  // ------------------------------------------------------------ one connection and the queue

  /** What thread `t` was promised: run, then queued, in the order of its sends. */
  ghost predicate OrderKept(t: Tid, e: Entry, queued: seq<Msg>) {
    By(t, e.k.ran) + By(t, queued) == By(t, e.accepted)
  }

  ghost predicate SendsOk(e: Entry, queued: seq<Msg>) {
    && (forall t: Tid :: OrderKept(t, e, queued))
    && By(OWNER, queued) == []
    && Size(e.k.ran) + Size(queued) == Size(e.accepted)
    && (e.k.state == Connecting ==> queued == [] && e.accepted == [])
  }

  /** Each connection is established once, and each close leads to one connectionDestroyed. */
  ghost predicate LifeOk(e: Entry, establishing: nat, destroying: nat) {
    && establishing == (if e.k.state == Connecting then 1 else 0)
    && e.k.closes == e.closing + destroying + e.k.destroyed
  }

  ghost predicate QueueOk(c: ConnId, e: Entry, work: seq<Functor>) {
    && SendsOk(e, Sends(work, c))
    && LifeOk(e, Count(work, Established(c)), Count(work, Destroyed(c)))
  }

  /** A functor that is about another connection, or changes none, makes no difference. */
  predicate Elsewhere(f: Functor, c: ConnId) {
    f.User? || f.WriteComplete? || f.conn != c
  }

  lemma PushElsewhere(c: ConnId, e: Entry, work: seq<Functor>, f: Functor)
    requires Elsewhere(f, c) && QueueOk(c, e, work)
    ensures QueueOk(c, e, work + [f])
  {
    Snoc(work, f, c);
  }

  lemma PopElsewhere(c: ConnId, e: Entry, work: seq<Functor>)
    requires work != [] && Elsewhere(work[0], c) && QueueOk(c, e, work)
    ensures QueueOk(c, e, work[1..])
  {
    NothingAdded(Sends(work[1..], c));
  }

  /** The parts of a connection that its place in the queue depends on. */
  ghost predicate SameForQueue(k: Conn, was: Conn) {
    k.ran == was.ran && (k.state == Connecting <==> was.state == Connecting)
  }

  /** A step of the connection that ran no message and queued nothing of its own. */
  lemma StepInPlace(c: ConnId, e: Entry, k: Conn, closing: nat, work: seq<Functor>)
    requires QueueOk(c, e, work) && SameForQueue(k, e.k)
    requires k.closes - k.destroyed == e.k.closes - e.k.destroyed + closing - e.closing
    ensures QueueOk(c, e.(k := k, closing := closing), work)
  {
    var e' := e.(k := k, closing := closing);
    forall t: Tid ensures OrderKept(t, e', Sends(work, c)) {
      assert OrderKept(t, e, Sends(work, c));
    }
  }

  /** send on another thread, after its test of m_state. */
  lemma AcceptForeign(c: ConnId, e: Entry, m: Msg, work: seq<Functor>)
    requires QueueOk(c, e, work) && m.from != OWNER && e.k.state != Connecting
    ensures QueueOk(c, e.(accepted := e.accepted + [m]), work + [SendLater(c, m)])
  {
    var e', f := e.(accepted := e.accepted + [m]), SendLater(c, m);
    Snoc(work, f, c);
    var queued := Sends(work, c);
    forall t: Tid ensures OrderKept(t, e', queued + [m]) {
      assert OrderKept(t, e, queued);
      BySnoc(t, queued, m);
      BySnoc(t, e.accepted, m);
      Regroup(By(t, e.k.ran), By(t, queued), if m.from == t then [m.bytes] else []);
    }
    BySnoc(OWNER, queued, m);
    SizeSnoc(queued, m);
    SizeSnoc(e.accepted, m);
  }

  /** `k` is `was` after it ran message `m`. */
  ghost predicate RanOneMore(k: Conn, was: Conn, m: Msg) {
    k.ran == was.ran + [m] && k.state == was.state && k.closes == was.closes && k.destroyed == was.destroyed
  }

  /** send on the loop thread: accepted and run at once, ahead of what other threads have queued. */
  lemma AcceptOwn(c: ConnId, e: Entry, m: Msg, k: Conn, work: seq<Functor>)
    requires QueueOk(c, e, work) && m.from == OWNER && e.k.state == Connected && RanOneMore(k, e.k, m)
    ensures QueueOk(c, e.(k := k, accepted := e.accepted + [m]), work)
  {
    var e' := e.(k := k, accepted := e.accepted + [m]);
    var queued := Sends(work, c);
    forall t: Tid ensures OrderKept(t, e', queued) {
      assert OrderKept(t, e, queued);
      BySnoc(t, e.k.ran, m);
      BySnoc(t, e.accepted, m);
      NothingAdded(By(t, e.k.ran));
      NothingAdded(By(t, e.accepted));
      NothingAdded(By(t, e.k.ran) + [m.bytes]);
    }
    SizeSnoc(e.k.ran, m);
    SizeSnoc(e.accepted, m);
  }

  lemma ByCons(t: Tid, m: Msg, rest: seq<Msg>)
    ensures By(t, [m] + rest) == (if m.from == t then [m.bytes] else []) + By(t, rest)
    ensures Size([m] + rest) == |m.bytes| + Size(rest)
  {
    BySnoc(t, [], m);
    SizeSnoc([], m);
    assert [] + [m] == [m];
    ByAppend(t, [m], rest);
    SizeAppend([m], rest);
  }

  /** The queued sendInLoop runs. */
  lemma RunQueuedSend(c: ConnId, e: Entry, m: Msg, k: Conn, work: seq<Functor>)
    requires QueueOk(c, e, work) && RanOneMore(k, e.k, m)
    requires work != [] && work[0] == SendLater(c, m)
    ensures QueueOk(c, e.(k := k), work[1..])
    ensures e.k.state != Connecting
  {
    var rest := Sends(work[1..], c);
    var e' := e.(k := k);
    assert Sends(work, c) == [m] + rest;
    forall t: Tid ensures OrderKept(t, e', rest) {
      assert OrderKept(t, e, [m] + rest);
      BySnoc(t, e.k.ran, m);
      ByCons(t, m, rest);
      Regroup(By(t, e.k.ran), if m.from == t then [m.bytes] else [], By(t, rest));
    }
    ByCons(OWNER, m, rest);
    SizeSnoc(e.k.ran, m);
  }

  /** A functor that is neither a send nor anything else but this leaves the waiting sends alone. */
  lemma PopOther(c: ConnId, work: seq<Functor>)
    requires work != [] && !work[0].SendLater?
    ensures Sends(work[1..], c) == Sends(work, c)
    ensures forall f :: Count(work, f) == Count(work[1..], f) + if work[0] == f then 1 else 0
  {
    NothingAdded(Sends(work[1..], c));
  }

  lemma RunEstablished(c: ConnId, e: Entry, work: seq<Functor>)
    requires QueueOk(c, e, work) && work != [] && work[0] == Established(c)
    ensures QueueOk(c, e.(k := ConnectionEstablished(e.k)), work[1..])
    ensures e.k.state == Connecting
  {
    PopOther(c, work);
    var e' := e.(k := ConnectionEstablished(e.k));
    forall t: Tid ensures OrderKept(t, e', Sends(work[1..], c)) {
      assert OrderKept(t, e, Sends(work, c));
    }
  }

  lemma RunDestroyed(c: ConnId, e: Entry, work: seq<Functor>)
    requires QueueOk(c, e, work) && work != [] && work[0] == Destroyed(c)
    requires 0 < e.k.closes ==> e.k.state == Disconnected
    ensures QueueOk(c, e.(k := ConnectionDestroyed(e.k)), work[1..])
    ensures e.k.state == Disconnected
  {
    PopOther(c, work);
    var e' := e.(k := ConnectionDestroyed(e.k));
    forall t: Tid ensures OrderKept(t, e', Sends(work[1..], c)) {
      assert OrderKept(t, e, Sends(work, c));
    }
  }

  /** removeConnectionInLoop turns a close into a queued connectionDestroyed. */
  lemma QueueDestroyed(c: ConnId, e: Entry, work: seq<Functor>)
    requires QueueOk(c, e, work) && 0 < e.closing
    ensures QueueOk(c, e.(closing := e.closing - 1), work + [Destroyed(c)])
  {
    Snoc(work, Destroyed(c), c);
    var e' := e.(closing := e.closing - 1);
    forall t: Tid ensures OrderKept(t, e', Sends(work, c)) {
      assert OrderKept(t, e, Sends(work, c));
    }
  }
}
