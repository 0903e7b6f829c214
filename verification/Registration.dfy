/**
 * One handler's registration, seen by itself: what the Handler believes, what
 * the poller's map says and what the kernel holds for its descriptor.
 */
module Registration {
  import opened Basics

  /** An event mask, one field for each flag of <sys/epoll.h> and <poll.h> that the source names. */
  datatype Mask = Mask(input: bool, pri: bool, out: bool, err: bool, hup: bool, nval: bool, rdhup: bool) {

    /** `this | m` */
    function Or(m: Mask): Mask {
      Mask(input || m.input, pri || m.pri, out || m.out, err || m.err, hup || m.hup, nval || m.nval, rdhup || m.rdhup)
    }

    /** `this & ~m` */
    function AndNot(m: Mask): Mask {
      Mask(input && !m.input, pri && !m.pri, out && !m.out, err && !m.err,
           hup && !m.hup, nval && !m.nval, rdhup && !m.rdhup)
    }

    function Low(): bv16 {
      Bit(input, 0x1) | Bit(pri, 0x2) | Bit(out, 0x4)
    }

    function High(): bv16 {
      Bit(err, 0x8) | Bit(hup, 0x10) | Bit(nval, 0x20) | Bit(rdhup, 0x2000)
    }

    /** The `int` the source computes with; every flag lies in its low sixteen bits. */
    function Bits(): bv16 {
      Low() | High()
    }
  }

  function Bit(set_: bool, flag: bv16): bv16 {
    if set_ then flag else 0
  }

  const NONE_EVENT := Mask(false, false, false, false, false, false, false)
  const READ_EVENT := NONE_EVENT.(input := true, pri := true)
  const WRITE_EVENT := NONE_EVENT.(out := true)

  /** Each field is the test of its bit. */
  lemma FieldIsBit(m: Mask)
    ensures m.input <==> m.Bits() & 0x1 != 0
    ensures m.pri <==> m.Bits() & 0x2 != 0
    ensures m.out <==> m.Bits() & 0x4 != 0
    ensures m.err <==> m.Bits() & 0x8 != 0
    ensures m.hup <==> m.Bits() & 0x10 != 0
    ensures m.nval <==> m.Bits() & 0x20 != 0
    ensures m.rdhup <==> m.Bits() & 0x2000 != 0
  {
  }

  lemma Halves(m: Mask)
    ensures m.Low() & 0xfff8 == 0 && m.High() & 0x7 == 0
  {
  }

  lemma OrLow(m: Mask, n: Mask)
    ensures m.Or(n).Low() == m.Low() | n.Low()
  {
  }

  lemma OrHigh(m: Mask, n: Mask)
    ensures m.Or(n).High() == m.High() | n.High()
  {
  }

  lemma OrJoins(a: bv16, b: bv16, c: bv16, d: bv16)
    ensures (a | b) | (c | d) == (a | c) | (b | d)
  {
  }

  lemma OrIsBitwise(m: Mask, n: Mask)
    ensures m.Or(n).Bits() == m.Bits() | n.Bits()
  {
    OrLow(m, n);
    OrHigh(m, n);
    OrJoins(m.Low(), m.High(), n.Low(), n.High());
  }

  lemma AndNotLow(m: Mask, n: Mask)
    ensures m.AndNot(n).Low() == m.Low() & !n.Low()
  {
  }

  lemma AndNotHigh(m: Mask, n: Mask)
    ensures m.AndNot(n).High() == m.High() & !n.High()
  {
  }

  lemma AndNotJoins(a: bv16, b: bv16, c: bv16, d: bv16)
    requires a & 0xfff8 == 0 && c & 0xfff8 == 0 && b & 0x7 == 0 && d & 0x7 == 0
    ensures (a | b) & !(c | d) == (a & !c) | (b & !d)
  {
  }

  lemma AndNotIsBitwise(m: Mask, n: Mask)
    ensures m.AndNot(n).Bits() == m.Bits() & !n.Bits()
  {
    Halves(m);
    Halves(n);
    AndNotLow(m, n);
    AndNotHigh(m, n);
    AndNotJoins(m.Low(), m.High(), n.Low(), n.High());
  }

  /** The masks that the handler's calls make, as the integers of the source: EPOLLIN and EPOLLPRI, EPOLLOUT. */
  lemma CallsOnBits(r: Reg)
    ensures EnableReading(r).events.Bits() == r.events.Bits() | 0x3
    ensures EnableWriting(r).events.Bits() == r.events.Bits() | 0x4
    ensures DisableWriting(r).events.Bits() == r.events.Bits() & !0x4
    ensures DisableAll(r).events.Bits() == 0
    ensures r.IsWriting() <==> r.events.Bits() & 0x4 != 0
  {
    CallsOnEvents(r);
    MasksAsBits();
    OrIsBitwise(r.events, READ_EVENT);
    OrIsBitwise(r.events, WRITE_EVENT);
    AndNotIsBitwise(r.events, WRITE_EVENT);
    FieldIsBit(r.events);
  }

  lemma MasksAsBits()
    ensures READ_EVENT.Bits() == 0x3 && WRITE_EVENT.Bits() == 0x4 && NONE_EVENT.Bits() == 0
  {
  }

  lemma CallsOnEvents(r: Reg)
    ensures EnableReading(r).events == r.events.Or(READ_EVENT)
    ensures EnableWriting(r).events == r.events.Or(WRITE_EVENT)
    ensures DisableWriting(r).events == r.events.AndNot(WRITE_EVENT)
    ensures DisableAll(r).events == NONE_EVENT
  {
    EventsOfUpdate(r, r.events.Or(READ_EVENT));
    EventsOfUpdate(r, r.events.Or(WRITE_EVENT));
    EventsOfUpdate(r, r.events.AndNot(WRITE_EVENT));
    EventsOfUpdate(r, NONE_EVENT);
  }

  lemma EventsOfUpdate(r: Reg, events: Mask)
    ensures Update(r.(events := events)).events == events
  {
  }

  datatype HandlerState = New | Added | Deleted

  /** `fault` is set by a failing assert and by an epoll_ctl call that the kernel refuses. */
  datatype Reg = Reg(state: HandlerState, events: Mask, mapped: bool, kernel: Option<Mask>, fault: bool) {

    /** The handler, the map and the kernel agree, and nothing has gone wrong. */
    ghost predicate Ok() {
      && !fault
      && (state == New <==> !mapped)
      && (state == Added <==> kernel.Some?)
      && (state == Added ==> kernel == Some(events))
      && (state != Added ==> events == NONE_EVENT)
    }

    predicate IsWriting() {
      events.out
    }

    predicate IsReading() {
      events.input && events.pri
    }
  }

  const FRESH: Reg := Reg(New, NONE_EVENT, false, None, false)

  datatype CtlOp = CtlAdd | CtlMod | CtlDel

  /** epoll_ctl(2) for one descriptor: ADD refuses a present one, MOD and DEL refuse an absent one. */
  function Ctl(op: CtlOp, r: Reg): Reg {
    match op
    case CtlAdd => if r.kernel.None? then r.(kernel := Some(r.events)) else r.(fault := true)
    case CtlMod => if r.kernel.Some? then r.(kernel := Some(r.events)) else r.(fault := true)
    case CtlDel => if r.kernel.Some? then r.(kernel := None) else r.(fault := true)
  }

  /** It refuses exactly an addition of what is there, and a change or deletion of what is not. */
  lemma CtlRefusesExactly(op: CtlOp, r: Reg)
    requires !r.fault
    ensures Ctl(op, r).fault <==> if op == CtlAdd then r.kernel.Some? else r.kernel.None?
    ensures !Ctl(op, r).fault ==> Ctl(op, r).kernel == if op == CtlDel then None else Some(r.events)
  {
  }

  function Check(r: Reg, holds: bool): Reg {
    if holds then r else r.(fault := true)
  }

  function Update(r: Reg): Reg {
    match r.state
    case New => Ctl(CtlAdd, Check(r, !r.mapped).(mapped := true, state := Added))
    case Deleted => Ctl(CtlAdd, Check(r, r.mapped).(state := Added))
    case Added =>
      if r.events == NONE_EVENT then Ctl(CtlDel, Check(r, r.mapped)).(state := Deleted)
      else Ctl(CtlMod, Check(r, r.mapped))
  }

  function EnableReading(r: Reg): Reg { Update(r.(events := r.events.Or(READ_EVENT))) }

  function EnableWriting(r: Reg): Reg { Update(r.(events := r.events.Or(WRITE_EVENT))) }

  function DisableWriting(r: Reg): Reg { Update(r.(events := r.events.AndNot(WRITE_EVENT))) }

  function DisableAll(r: Reg): Reg { Update(r.(events := NONE_EVENT)) }

  /** Handler::removeHandler down to EPollPoller::removeHandler. */
  function Remove(r: Reg): Reg {
    var checked := Check(r, r.mapped && r.events == NONE_EVENT && r.state != New).(mapped := false);
    (if r.state == Added then Ctl(CtlDel, checked) else checked).(state := New)
  }

  datatype Call = CallEnableReading | CallEnableWriting | CallDisableWriting | CallDisableAll | CallRemove

  function Apply(r: Reg, call: Call): Reg {
    match call
    case CallEnableReading => EnableReading(r)
    case CallEnableWriting => EnableWriting(r)
    case CallDisableWriting => DisableWriting(r)
    case CallDisableAll => DisableAll(r)
    case CallRemove => Remove(r)
  }

  function Run(r: Reg, calls: seq<Call>): Reg {
    if calls == [] then r else Apply(Run(r, calls[..|calls| - 1]), calls[|calls| - 1])
  }

  /** removeHandler's asserts hold exactly for a known handler without events. */
  lemma RemoveFaultsExactly(r: Reg)
    requires r.Ok()
    ensures Remove(r).fault <==> r.state == New || r.events != NONE_EVENT
    ensures !Remove(r).fault ==> Remove(r) == FRESH
  {
  }

  /**
   * Whatever the new mask is, updateHandler brings the three views together again:
   * the handler is in the map, and in the kernel's set unless it was there already
   * and has no events now.
   */
  lemma UpdateAgrees(r: Reg, events: Mask)
    requires r.Ok()
    ensures var t := Update(r.(events := events));
            && t.Ok() && t.events == events && t.mapped
            && (t.kernel.None? <==> r.kernel.Some? && events == NONE_EVENT)
  {
  }

  /** Whatever the state it was in, a handler that updates is known afterwards. */
  lemma UpdateIsKnown(r: Reg, events: Mask)
    ensures Update(r.(events := events)).state != New
  {
  }

  lemma ApplyKeepsAgreement(r: Reg, call: Call)
    requires r.Ok()
    requires call == CallRemove ==> r.state != New && r.events == NONE_EVENT
    ensures Apply(r, call).Ok()
  {
    match call
    case CallEnableReading => UpdateAgrees(r, r.events.Or(READ_EVENT));
    case CallEnableWriting => UpdateAgrees(r, r.events.Or(WRITE_EVENT));
    case CallDisableWriting => UpdateAgrees(r, r.events.AndNot(WRITE_EVENT));
    case CallDisableAll => UpdateAgrees(r, NONE_EVENT);
    case CallRemove => RemoveFaultsExactly(r);
  }

  lemma UpdateKeepsFault(r: Reg, events: Mask)
    requires r.fault
    ensures Update(r.(events := events)).fault
  {
  }

  lemma ApplyKeepsFault(r: Reg, call: Call)
    requires r.fault
    ensures Apply(r, call).fault
  {
    match call
    case CallEnableReading => UpdateKeepsFault(r, r.events.Or(READ_EVENT));
    case CallEnableWriting => UpdateKeepsFault(r, r.events.Or(WRITE_EVENT));
    case CallDisableWriting => UpdateKeepsFault(r, r.events.AndNot(WRITE_EVENT));
    case CallDisableAll => UpdateKeepsFault(r, NONE_EVENT);
    case CallRemove =>
  }

  /** Every CallRemove finds a handler that is known and has no events: what its callers establish. */
  ghost predicate RemovesAreGuarded(calls: seq<Call>) {
    calls == []
    || (RemovesAreGuarded(calls[..|calls| - 1])
        && (calls[|calls| - 1] == CallRemove ==> Removable(calls[..|calls| - 1])))
  }

  ghost predicate Removable(before: seq<Call>) {
    Run(FRESH, before).state != New && Run(FRESH, before).events == NONE_EVENT
  }

  lemma {:induction false} AgreementKept(calls: seq<Call>)
    requires RemovesAreGuarded(calls)
    ensures Run(FRESH, calls).Ok()
  {
    if calls != [] {
      var init := calls[..|calls| - 1];
      AgreementKept(init);
      ApplyKeepsAgreement(Run(FRESH, init), calls[|calls| - 1]);
    }
  }

  lemma {:induction false} FaultSticks(r: Reg, calls: seq<Call>, n: nat)
    requires n <= |calls| && Run(r, calls[..n]).fault
    ensures Run(r, calls).fault
    decreases |calls|
  {
    if n < |calls| {
      var init := calls[..|calls| - 1];
      assert init[..n] == calls[..n];
      FaultSticks(r, init, n);
      ApplyKeepsFault(Run(r, init), calls[|calls| - 1]);
    } else {
      assert calls[..n] == calls;
    }
  }

  /**
   * Three-way agreement over every sequence of calls on a new handler: no assert
   * fails and epoll_ctl refuses nothing if and only if each removal was of a
   * known handler without events; and then all three views agree at the end.
   */
  lemma {:induction false} AgreementExactly(calls: seq<Call>)
    ensures !Run(FRESH, calls).fault <==> RemovesAreGuarded(calls)
    ensures RemovesAreGuarded(calls) ==> Run(FRESH, calls).Ok()
  {
    if RemovesAreGuarded(calls) {
      AgreementKept(calls);
    } else {
      var i := FirstBadRemove(calls);
      AgreementKept(calls[..i]);
      assert calls[..i + 1][..i] == calls[..i];
      RemoveFaultsExactly(Run(FRESH, calls[..i]));
      FaultSticks(FRESH, calls, i + 1);
    }
  }

  lemma {:induction false} FirstBadRemove(calls: seq<Call>) returns (i: nat)
    requires !RemovesAreGuarded(calls)
    ensures i < |calls| && calls[i] == CallRemove && RemovesAreGuarded(calls[..i])
    ensures !Removable(calls[..i])
  {
    var init := calls[..|calls| - 1];
    if RemovesAreGuarded(init) {
      i := |calls| - 1;
    } else {
      i := FirstBadRemove(init);
      assert calls[..i] == init[..i];
    }
  }

  /** Teardown works from every registration state, and leaves no trace of the handler. */
  lemma TeardownFromAnyState(r: Reg)
    requires r.Ok()
    ensures DisableAll(r).Ok() && DisableAll(r).events == NONE_EVENT && DisableAll(r).state != New
    ensures Remove(DisableAll(r)) == FRESH
  {
  }

  /** An empty mask does not mean unregistered: without events, each further disableAll toggles ADD and DEL. */
  lemma {:induction false} DisableAllToggles(r: Reg, n: nat)
    requires r.Ok() && r.state != New && r.events == NONE_EVENT
    ensures var t := Run(r, seq(n, _ => CallDisableAll));
            t.Ok() && t.events == NONE_EVENT && t.mapped
            && (t.state == Added <==> ((r.state == Added) <==> (n % 2 == 0)))
  {
    if n > 0 {
      DisableAllToggles(r, n - 1);
      var calls := seq(n, _ => CallDisableAll);
      assert calls[..n - 1] == seq(n - 1, _ => CallDisableAll);
    }
  }
}
