/**
 * Handler and EPollPoller as objects: many handlers on one epoll descriptor.
 * The kernel side of epoll_ctl(2) and epoll_wait(2) is the field `kernel`.
 */
module Poller {
  import opened Basics
  import opened Registration

  const INITIAL_EVENT_LIST: nat := 16

  class Handler {
    const poller: EPollPoller     // the poller of the owning loop, which forwards both calls unchanged
    const fd: int
    var events: Mask
    var revents: Mask
    var state: HandlerState

    constructor (poller: EPollPoller, fd: int)
      requires poller.Valid()
      requires forall h <- poller.handlers :: h.fd != fd
      modifies poller`handlers
      ensures poller.Valid() && poller.handlers == old(poller.handlers) + {this}
      ensures this.poller == poller && this.fd == fd
      ensures poller.View(this) == FRESH && revents == NONE_EVENT
    {
      this.poller, this.fd := poller, fd;
      events, revents, state := NONE_EVENT, NONE_EVENT, New;
      new;
      poller.handlers := poller.handlers + {this};
    }

    predicate IsNoneEvent()
      reads this
    {
      events == NONE_EVENT
    }

    predicate IsWriting()
      reads this
    {
      events.out
    }

    method EnableReading()
      requires poller.Valid() && this in poller.handlers
      modifies this, poller`handlermap, poller`kernel, poller`refused
      ensures poller.Valid() && poller.OnlyChanged(this, old(poller.handlermap), old(poller.kernel))
      ensures forall g <- poller.handlers - {this} :: poller.View(g) == old(poller.View(g))
      ensures poller.View(this) == Registration.EnableReading(old(poller.View(this)))
    {
      events := events.Or(READ_EVENT);
      poller.UpdateHandler(this, old(poller.View(this)));
    }

    method EnableWriting()
      requires poller.Valid() && this in poller.handlers
      modifies this, poller`handlermap, poller`kernel, poller`refused
      ensures poller.Valid() && poller.OnlyChanged(this, old(poller.handlermap), old(poller.kernel))
      ensures forall g <- poller.handlers - {this} :: poller.View(g) == old(poller.View(g))
      ensures poller.View(this) == Registration.EnableWriting(old(poller.View(this)))
    {
      events := events.Or(WRITE_EVENT);
      poller.UpdateHandler(this, old(poller.View(this)));
    }

    method DisableWriting()
      requires poller.Valid() && this in poller.handlers
      modifies this, poller`handlermap, poller`kernel, poller`refused
      ensures poller.Valid() && poller.OnlyChanged(this, old(poller.handlermap), old(poller.kernel))
      ensures forall g <- poller.handlers - {this} :: poller.View(g) == old(poller.View(g))
      ensures poller.View(this) == Registration.DisableWriting(old(poller.View(this)))
    {
      events := events.AndNot(WRITE_EVENT);
      poller.UpdateHandler(this, old(poller.View(this)));
    }

    method DisableAll()
      requires poller.Valid() && this in poller.handlers
      modifies this, poller`handlermap, poller`kernel, poller`refused
      ensures poller.Valid() && poller.OnlyChanged(this, old(poller.handlermap), old(poller.kernel))
      ensures forall g <- poller.handlers - {this} :: poller.View(g) == old(poller.View(g))
      ensures poller.View(this) == Registration.DisableAll(old(poller.View(this)))
    {
      events := NONE_EVENT;
      poller.UpdateHandler(this, old(poller.View(this)));
    }

    method RemoveHandler()
      requires poller.Valid() && this in poller.handlers
      requires state != New && IsNoneEvent()
      modifies this`state, poller`handlermap, poller`kernel, poller`refused
      ensures poller.Valid() && poller.OnlyChanged(this, old(poller.handlermap), old(poller.kernel))
      ensures forall g <- poller.handlers - {this} :: poller.View(g) == old(poller.View(g))
      ensures poller.View(this) == Registration.Remove(old(poller.View(this))) == FRESH
    {
      assert IsNoneEvent();
      poller.RemoveHandler(this);
    }
  }

  ghost predicate SameElsewhere<V>(m: map<int, V>, n: map<int, V>, fd: int) {
    forall k | k != fd :: (k in m <==> k in n) && (k in m ==> m[k] == n[k])
  }

  /** One entry of `m_eventlist`: the ready flags, and the handler stored in `data.ptr`. */
  datatype Event = Event(fd: int, revents: Mask)

  lemma {:induction false} DistinctCount(ready: seq<Event>)
    requires forall i, j | 0 <= i < j < |ready| :: ready[i].fd != ready[j].fd
    ensures |set i | 0 <= i < |ready| :: ready[i].fd| == |ready|
  {
    if ready != [] {
      var init, last := ready[..|ready| - 1], ready[|ready| - 1].fd;
      DistinctCount(init);
      var fds := set i | 0 <= i < |init| :: init[i].fd;
      assert (set i | 0 <= i < |ready| :: ready[i].fd) == fds + {last};
      assert last !in fds;
    }
  }

  lemma {:induction false} SubsetSize<T>(a: set<T>, b: set<T>)
    requires a <= b
    ensures |a| <= |b|
  {
    if x :| x in a {
      SubsetSize(a - {x}, b - {x});
    }
  }

  class EPollPoller {
    var handlermap: map<int, Handler>
    var eventlist: nat                         // m_eventlist.size()
    var kernel: map<int, (Mask, Handler)>      // the epoll interest list: mask and data.ptr of each descriptor
    var refused: bool                          // some epoll_ctl call returned EEXIST or ENOENT
    ghost var handlers: set<Handler>           // every handler made for this loop

    /** What the handler, the map and the kernel say about one handler. */
    ghost function View(h: Handler): (r: Reg)
      reads this, h
    {
      Reg(h.state, h.events, h.fd in handlermap, if h.fd in kernel then Some(kernel[h.fd].0) else None, refused)
    }

    /** Distinct descriptors, and no stray entry in either map. */
    ghost predicate Consistent()
      reads this, handlers
    {
      && (forall h, g | h in handlers && g in handlers && h.fd == g.fd :: h == g)
      && (forall h <- handlers :: h.poller == this)
      && (forall fd <- handlermap :: handlermap[fd] in handlers && handlermap[fd].fd == fd)
      && (forall fd <- kernel :: kernel[fd].1 in handlers && kernel[fd].1.fd == fd)
      && 0 < eventlist
      && !refused
    }

    /** And every single handler is agreed upon. */
    ghost predicate Valid()
      reads this, handlers
    {
      && Consistent()
      && (forall h <- handlers :: View(h).Ok())
    }

    /** The two maps are as before except at `h`. */
    ghost predicate OnlyChanged(h: Handler, wasMap: map<int, Handler>, wasKernel: map<int, (Mask, Handler)>)
      reads this
    {
      SameElsewhere(handlermap, wasMap, h.fd) && SameElsewhere(kernel, wasKernel, h.fd)
    }

    constructor ()
      ensures Valid() && handlers == {} && handlermap == map[] && kernel == map[]
      ensures eventlist == 16
    {
      handlermap, kernel, handlers, refused, eventlist := map[], map[], {}, false, INITIAL_EVENT_LIST;
    }

    /** The handler has just set its new mask over a state that agreed. */
    method UpdateHandler(h: Handler, ghost was: Reg)
      requires h in handlers && was.Ok()
      requires View(h) == was.(events := h.events)
      requires forall g <- handlers - {h} :: View(g).Ok()
      requires Consistent()
      modifies this`handlermap, this`kernel, this`refused, h`state
      ensures Valid() && OnlyChanged(h, old(handlermap), old(kernel))
      ensures forall g <- handlers - {h} :: View(g) == old(View(g))
      ensures View(h) == Registration.Update(old(View(h)))
    {
      UpdateAgrees(was, h.events);
      if h.state == New || h.state == Deleted {
        Enter(h, was);
      } else {
        Change(h, was);
      }
    }

    /** The branch for a handler that the kernel does not know. */
    method Enter(h: Handler, ghost was: Reg)
      requires h in handlers && was.Ok() && Consistent()
      requires View(h) == was.(events := h.events) && h.state != Added
      modifies this`handlermap, this`kernel, this`refused, h`state
      ensures Consistent() && OnlyChanged(h, old(handlermap), old(kernel))
      ensures forall g <- handlers - {h} :: View(g) == old(View(g))
      ensures View(h) == Registration.Update(old(View(h)))
    {
      if h.state == New {
        assert h.fd !in handlermap;
        handlermap := handlermap[h.fd := h];
      } else {
        assert h.fd in handlermap;
        assert handlermap[h.fd] == h;
      }
      h.state := Added;
      Update(CtlAdd, h);
      assert forall g <- handlers - {h} :: g.fd != h.fd;
    }

    /** The branch for a handler that the kernel knows. */
    method Change(h: Handler, ghost was: Reg)
      requires h in handlers && was.Ok() && Consistent()
      requires View(h) == was.(events := h.events) && h.state == Added
      modifies this`kernel, this`refused, h`state
      ensures Consistent() && OnlyChanged(h, old(handlermap), old(kernel))
      ensures forall g <- handlers - {h} :: View(g) == old(View(g))
      ensures View(h) == Registration.Update(old(View(h)))
    {
      assert h.fd in handlermap;
      assert handlermap[h.fd] == h;
      assert h.state == Added;
      if h.IsNoneEvent() {
        Update(CtlDel, h);
        h.state := Deleted;
      } else {
        Update(CtlMod, h);
      }
      assert forall g <- handlers - {h} :: g.fd != h.fd;
    }

    method RemoveHandler(h: Handler)
      requires Valid() && h in handlers
      requires h.state != New && h.IsNoneEvent()
      modifies this`handlermap, this`kernel, this`refused, h`state
      ensures Valid() && OnlyChanged(h, old(handlermap), old(kernel))
      ensures forall g <- handlers - {h} :: View(g) == old(View(g))
      ensures View(h) == Registration.Remove(old(View(h))) == FRESH
    {
      assert h.fd in handlermap;
      assert handlermap[h.fd] == h;
      assert h.IsNoneEvent();
      assert h.state == Added || h.state == Deleted;
      var state := h.state;
      handlermap := handlermap - {h.fd};
      if state == Added {
        Update(CtlDel, h);
      }
      h.state := New;
      assert forall g <- handlers - {h} :: g.fd != h.fd && View(g) == old(View(g));
    }

    /** What epoll_wait(2) may report: registered descriptors, each once, and no more than fit the list. */
    ghost predicate MayReport(ready: seq<Event>)
      reads this
    {
      && |ready| <= eventlist
      && (forall i, j | 0 <= i < j < |ready| :: ready[i].fd != ready[j].fd)
      && (forall i | 0 <= i < |ready| :: ready[i].fd in kernel)
    }

    /**
     * One poll: nothing on a timeout or an error, else the handlers of the
     * reported descriptors in that order, each with its ready flags.
     */
    method PollEvent(waited: Option<seq<Event>>) returns (active: seq<Handler>)
      requires Valid()
      requires waited.Some? ==> MayReport(waited.value)
      modifies this`eventlist, handlers`revents
      ensures Valid() && (forall h <- handlers :: View(h) == old(View(h)))
      ensures waited.None? ==> active == [] && eventlist == old(eventlist)
      ensures waited.Some? ==> Activated(waited.value, active)
      ensures waited.Some? ==>
                eventlist == old(eventlist) * if |waited.value| == old(eventlist) then 2 else 1
    {
      active := [];
      if waited.Some? && |waited.value| > 0 {
        active := FillActiveHandlers(waited.value);
        if |waited.value| == eventlist {
          eventlist := eventlist * 2;
        }
      }
    }

    /** `active` are distinct registered handlers, one for each event, and hold its flags. */
    ghost predicate Activated(ready: seq<Event>, active: seq<Handler>)
      reads this, handlers
    {
      && |active| == |ready| <= |handlermap|
      && (forall i | 0 <= i < |active| ::
            && active[i] in handlers && active[i].fd == ready[i].fd
            && active[i].state == Added && active[i].revents == ready[i].revents)
      && (forall i, j | 0 <= i < j < |active| :: active[i] != active[j])
    }

    /** The handler stored in one event gets the event's flags. */
    method Activate(ready: seq<Event>, active: seq<Handler>, e: Event) returns (handler: Handler)
      requires Valid() && Activated(ready, active) && |ready| < |handlermap|
      requires e.fd in kernel && forall i | 0 <= i < |ready| :: ready[i].fd != e.fd
      modifies handlers`revents
      ensures Valid() && (forall h <- handlers :: View(h) == old(View(h)))
      ensures Activated(ready + [e], active + [handler])
    {
      handler := kernel[e.fd].1;
      assert View(handler).kernel.Some?;
      handler.revents := e.revents;
    }

    method FillActiveHandlers(ready: seq<Event>) returns (active: seq<Handler>)
      requires Valid() && MayReport(ready)
      modifies handlers`revents
      ensures Valid() && (forall h <- handlers :: View(h) == old(View(h)))
      ensures Activated(ready, active)
    {
      ReportFitsMap(ready);
      assert |ready| <= |handlermap|;
      active := [];
      for i := 0 to |ready|
        invariant Valid() && (forall h <- handlers :: View(h) == old(View(h)))
        invariant MayReport(ready)
        invariant Activated(ready[..i], active)
      {
        var handler := Activate(ready[..i], active, ready[i]);
        active := active + [handler];
        assert ready[..i + 1] == ready[..i] + [ready[i]];
      }
      assert ready[..|ready|] == ready;
    }

    /** The kernel never knows more descriptors than the map, so the source's assert on `numEvents` holds. */
    lemma ReportFitsMap(ready: seq<Event>)
      requires Valid() && MayReport(ready)
      ensures |ready| <= |handlermap|
    {
      var fds := set i | 0 <= i < |ready| :: ready[i].fd;
      forall fd <- fds ensures fd in handlermap {
        assert View(kernel[fd].1).kernel.Some?;
      }
      DistinctCount(ready);
      SubsetSize(fds, handlermap.Keys);
    }

    /** epoll_ctl(2) with the handler's mask and address. */
    method Update(op: CtlOp, h: Handler)
      modifies this`kernel, this`refused
      ensures View(h) == Ctl(op, old(View(h)))
      ensures SameElsewhere(kernel, old(kernel), h.fd)
      ensures h.fd in kernel ==> kernel[h.fd].1 == h || (h.fd in old(kernel) && kernel[h.fd] == old(kernel)[h.fd])
    {
      match op
      case CtlAdd =>
        if h.fd in kernel { refused := true; } else { kernel := kernel[h.fd := (h.events, h)]; }
      case CtlMod =>
        if h.fd in kernel { kernel := kernel[h.fd := (h.events, h)]; } else { refused := true; }
      case CtlDel =>
        if h.fd in kernel { kernel := kernel - {h.fd}; } else { refused := true; }
    }
  }
}
