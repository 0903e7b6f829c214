/**
 * TcpConnection as an object over its Buffers, its Handler and its loop. Each
 * method is the transition of module Connection with the same name.
 */
module TcpConnections {
  import opened Basics
  import opened Connection
  import opened EventLoops
  import opened NetBuffer
  import opened Poller
  import opened Registration

  /** One call of write(2): what it was given and what it returned. */
  datatype WriteCall = WriteCall(data: seq<byte>, result: int)

  /** The socket, with its calls of write(2) and the bytes the kernel accepted from them. */
  class Socket {
    ghost var calls: seq<WriteCall>
    ghost var wire: seq<byte>
    ghost var fins: nat

    constructor ()
      ensures calls == [] && wire == [] && fins == 0
    {
      calls, wire, fins := [], [], 0;
    }

    /** write(2): an error, or any number of the bytes from the front. */
    method Write(data: seq<byte>) returns (n: int)
      modifies this
      ensures -1 <= n <= |data|
      ensures calls == old(calls) + [WriteCall(data, n)]
      ensures wire == old(wire) + data[..if 0 <= n then n else 0]
      ensures fins == old(fins)
    {
      assert -1 <= -1 <= |data|;
      n :| -1 <= n <= |data|;
      calls := calls + [WriteCall(data, n)];
      wire := wire + data[..if 0 <= n then n else 0];
    }

    method ShutdownWrite()
      modifies this
      ensures calls == old(calls) && wire == old(wire) && fins == old(fins) + 1
    {
      fins := fins + 1;
    }
  }

  class TcpConnection {
    const id: ConnId
    const loop: EventLoop<Functor>
    const socket: Socket
    const handler: Handler
    const inputBuffer: Buffer
    const outputBuffer: Buffer
    const notify: bool              // m_writeCompleteCB is set
    const serverSharesLoop: bool    // m_closeCB finds the server's loop to be this one
    var state: StateE
    ghost var conn: Conn            // the connection as a value, with the record of its run

    /** Everything a method of the connection may change. */
    ghost function Footprint(): set<object>
      reads this, inputBuffer, outputBuffer
    {
      {this, loop, socket, handler, handler.poller, inputBuffer, inputBuffer.data, outputBuffer, outputBuffer.data}
    }

    /** The buffers and the registration, each valid and apart from the other. */
    ghost predicate Parts()
      reads handler, handler.poller, inputBuffer, outputBuffer, handler.poller.handlers
    {
      && inputBuffer != outputBuffer && inputBuffer.data != outputBuffer.data
      && inputBuffer.Valid() && outputBuffer.Valid()
      && handler.poller.Valid() && handler in handler.poller.handlers
    }

    ghost predicate Valid()
      reads this, socket, handler, handler.poller, handler.poller.handlers, inputBuffer, outputBuffer, outputBuffer.data
    {
      && Parts()
      && Matches()
    }

    /** The objects hold what the value says. */
    ghost predicate Matches()
      requires outputBuffer.Valid()
      reads this, socket, handler, handler.poller, outputBuffer, outputBuffer.data
    {
      && conn.state == state && conn.notify == notify
      && conn.reg == handler.poller.View(handler)
      && conn.out == outputBuffer.Contents()
      && conn.wire == socket.wire && conn.fins == socket.fins
    }

    /** The loop thread is running a handler, a callback or a functor. */
    ghost predicate InLoop()
      reads loop
    {
      loop.Valid() && loop.MayCall(loop.threadId)
    }

    constructor (id: ConnId, loop: EventLoop<Functor>, poller: EPollPoller, fd: int,
                 notify: bool, serverSharesLoop: bool)
      requires poller.Valid()
      requires forall h <- poller.handlers :: h.fd != fd
      modifies poller`handlers
      ensures Valid() && conn == Created(notify)
      ensures this.id == id && this.loop == loop && this.handler.fd == fd && handler.poller == poller
      ensures this.notify == notify && this.serverSharesLoop == serverSharesLoop
      ensures inputBuffer.Contents() == [] && socket.calls == [] && fresh(socket) && fresh(handler)
    {
      this.id, this.loop, this.notify, this.serverSharesLoop := id, loop, notify, serverSharesLoop;
      state := Connecting;
      socket := new Socket();
      handler := new Handler(poller, fd);
      inputBuffer := new Buffer();
      outputBuffer := new Buffer();
      conn := Created(notify);
    }

    /** The three `send` overloads on a string: run here on the loop thread, else hand over. */
    method Send(caller: Tid, data: seq<byte>) returns (ghost w: int)
      requires Valid() && loop.Valid() && loop.MayCall(caller)
      modifies Footprint()
      ensures Valid() && loop.Valid() && -1 <= w <= |data|
      ensures caller == loop.threadId ==>
                && conn == Connection.Send(old(conn), Msg(caller, data), w).conn
                && loop.pendingFunctors == old(loop.pendingFunctors)
                     + (if Connection.Send(old(conn), Msg(caller, data), w).completes then [WriteComplete(id)] else [])
                && socket.calls == old(socket.calls)
                     + if state == Connected && old(conn).Direct() then [WriteCall(data, w)] else []
      ensures caller != loop.threadId ==>
                && conn == old(conn) && socket.calls == old(socket.calls)
                && loop.pendingFunctors == old(loop.pendingFunctors)
                     + (if state == Connected then [SendLater(id, Msg(caller, data))] else [])
                && (state == Connected ==> 0 < loop.wakeupCounter)
      ensures loop.MayCall(caller)
      ensures outputBuffer.data == old(outputBuffer.data) || fresh(outputBuffer.data)
    {
      w := -1;
      if state == Connected {
        if caller == loop.threadId {
          w := SendInLoop(Msg(caller, data));
        } else {
          loop.QueueInLoop(caller, SendLater(id, Msg(caller, data)));
        }
      }
    }

    method SendInLoop(m: Msg) returns (ghost w: int)
      requires Valid() && InLoop()
      modifies this`conn, loop, socket, handler, handler.poller, outputBuffer, outputBuffer.data
      ensures Valid() && InLoop() && -1 <= w <= |m.bytes|
      ensures conn == Connection.SendInLoop(old(conn), m, w).conn
      ensures socket.calls == old(socket.calls) + if old(conn).Direct() then [WriteCall(m.bytes, w)] else []
      ensures loop.pendingFunctors == old(loop.pendingFunctors)
                + if Connection.SendInLoop(old(conn), m, w).completes then [WriteComplete(id)] else []
      ensures outputBuffer.data == old(outputBuffer.data) || fresh(outputBuffer.data)
    {
      var nwrote;
      w, nwrote := FirstWrite(m);
      var remaining := |m.bytes| - nwrote;
      assert remaining <= |m.bytes|;
      if remaining > 0 {
        Keep(m.bytes[nwrote..]);
      }
    }

    /** If nothing is waiting: the first write of a message, with the completion if it took all of it. */
    method FirstWrite(m: Msg) returns (ghost w: int, nwrote: nat)
      requires Valid() && InLoop()
      modifies this`conn, loop, socket
      ensures Valid() && InLoop() && -1 <= w <= |m.bytes|
      ensures nwrote == Taken(old(conn), m, w) && conn == Wrote(old(conn), m, w)
      ensures socket.calls == old(socket.calls) + if old(conn).Direct() then [WriteCall(m.bytes, w)] else []
      ensures loop.pendingFunctors == old(loop.pendingFunctors)
                + if old(conn).Direct() && w == |m.bytes| && notify then [WriteComplete(id)] else []
    {
      nwrote, w := 0, -1;
      if !handler.IsWriting() && outputBuffer.ReadableBytes() == 0 {
        var n := socket.Write(m.bytes);
        w := n;
        if n >= 0 {
          nwrote := n;
          if |m.bytes| - nwrote == 0 && notify {
            Queue(WriteComplete(id));
          }
        }
      }
      conn := Wrote(conn, m, w);
    }

    /** queueInLoop on the loop thread. */
    method Queue(f: Functor)
      requires InLoop()
      modifies loop
      ensures InLoop()
      ensures loop.pendingFunctors == old(loop.pendingFunctors) + [f]
    {
      loop.QueueInLoop(loop.threadId, f);
    }

    /** What could not be written joins the backlog, and the handler waits to write. */
    method Keep(rest: seq<byte>)
      requires Valid() && rest != []
      modifies this`conn, handler, handler.poller, outputBuffer, outputBuffer.data
      ensures Valid() && conn == Kept(old(conn), rest)
      ensures outputBuffer.data == old(outputBuffer.data) || fresh(outputBuffer.data)
    {
      conn := Kept(conn, rest);
      outputBuffer.Append(rest);
      if !handler.IsWriting() {
        handler.EnableWriting();
      }
    }

    /** `send(Buffer*)`: only the hand-over to the loop thread drains the argument. */
    method SendBuffer(caller: Tid, message: Buffer) returns (ghost w: int)
      requires Valid() && loop.Valid() && loop.MayCall(caller)
      requires message.Valid() && message != outputBuffer && message.data != outputBuffer.data
      requires message == inputBuffer || message.data != inputBuffer.data
      modifies Footprint(), message
      ensures Valid() && loop.Valid() && -1 <= w <= |old(message.Contents())|
      ensures caller == loop.threadId ==>
                && conn == Connection.Send(old(conn), Msg(caller, old(message.Contents())), w).conn
                && loop.pendingFunctors == old(loop.pendingFunctors)
                     + (if Connection.Send(old(conn), Msg(caller, old(message.Contents())), w).completes
                        then [WriteComplete(id)] else [])
                && socket.calls == old(socket.calls)
                     + (if state == Connected && old(conn).Direct()
                        then [WriteCall(old(message.Contents()), w)] else [])
                && unchanged(message)
      ensures caller != loop.threadId ==>
                && conn == old(conn) && socket.calls == old(socket.calls)
                && loop.pendingFunctors == old(loop.pendingFunctors)
                     + (if state == Connected then [SendLater(id, Msg(caller, old(message.Contents())))] else [])
                && (state == Connected ==> 0 < loop.wakeupCounter)
                && message.Valid() && message.data == old(message.data)
                && (if state == Connected then message.Contents() == [] else unchanged(message))
    {
      w := -1;
      if state == Connected {
        if caller == loop.threadId {
          w := SendInLoop(Msg(caller, message.Peek()));
        } else {
          HandOver(caller, message);
        }
      }
    }

    /** The hand-over of `send(Buffer*)`, which drains the argument. */
    method HandOver(caller: Tid, message: Buffer)
      requires loop.Valid() && loop.MayCall(caller) && caller != loop.threadId
      requires message.Valid()
      modifies loop, message
      ensures loop.Valid() && loop.MayCall(caller) && 0 < loop.wakeupCounter
      ensures loop.pendingFunctors == old(loop.pendingFunctors) + [SendLater(id, Msg(caller, old(message.Contents())))]
      ensures message.Valid() && message.data == old(message.data) && message.Contents() == []
    {
      var text := message.RetrieveAllAsString();
      loop.QueueInLoop(caller, SendLater(id, Msg(caller, text)));
    }

    /** On the loop thread, as the header demands. */
    method Shutdown()
      requires Valid()
      modifies this`state, this`conn, socket
      ensures Valid() && conn == Connection.Shutdown(old(conn)) && socket.calls == old(socket.calls)
    {
      if state == Connected {
        state := Disconnecting;
        conn := conn.(state := Disconnecting);
        ShutdownInLoop();
      }
    }

    method ShutdownInLoop()
      requires Valid()
      modifies this`conn, socket
      ensures Valid() && conn == Connection.ShutdownInLoop(old(conn)) && socket.calls == old(socket.calls)
    {
      if !handler.IsWriting() {
        socket.ShutdownWrite();
        conn := Connection.ShutdownInLoop(conn);
      }
    }

    method ConnectionEstablished()
      requires Valid() && state == Connecting
      modifies this`state, this`conn, handler, handler.poller
      ensures Valid() && conn == Connection.ConnectionEstablished(old(conn))
    {
      assert state == Connecting;
      conn := Connection.ConnectionEstablished(conn);
      state := Connected;
      handler.EnableReading();
    }

    /** The handler can be in any registration state; it ends up unknown to the poller and the kernel. */
    method ConnectionDestroyed()
      requires Valid()
      modifies this`state, this`conn, handler, handler.poller
      ensures Valid() && conn == Connection.ConnectionDestroyed(old(conn))
      ensures conn.reg == FRESH && handler.fd !in handler.poller.handlermap && handler.fd !in handler.poller.kernel
    {
      TeardownFromAnyState(conn.reg);
      conn := Connection.ConnectionDestroyed(conn);
      state := Disconnected;
      handler.DisableAll();
      handler.RemoveHandler();
    }

    method HandleClose()
      requires Valid() && InLoop()
      requires state == Connected || state == Disconnecting
      modifies this`state, this`conn, handler, handler.poller, loop
      ensures Valid() && InLoop() && conn == Connection.HandleClose(old(conn))
      ensures loop.pendingFunctors == old(loop.pendingFunctors) + if serverSharesLoop then [Destroyed(id)] else []
    {
      assert state == Connected || state == Disconnecting;
      GoDown();
      if serverSharesLoop {
        Queue(Destroyed(id));
      }
    }

    method GoDown()
      requires Valid()
      modifies this`state, this`conn, handler, handler.poller
      ensures Valid() && conn == Connection.HandleClose(old(conn))
    {
      conn := Connection.HandleClose(conn);
      state := Disconnected;
      handler.DisableAll();
    }

    /** What arrived is appended to the input; the end of file closes, an error does neither. */
    method HandleRead(got: ReadResult) returns (n: int)
      requires Valid() && InLoop()
      requires got.Delivered? ==> |got.bytes| <= inputBuffer.data.Length - inputBuffer.writerIndex + 65536
      requires got == Delivered([]) ==> state == Connected || state == Disconnecting
      modifies this`state, this`conn, handler, handler.poller, loop, inputBuffer, inputBuffer.data
      ensures Valid() && InLoop()
      ensures n == if got.Delivered? then |got.bytes| else -1
      ensures inputBuffer.Contents() == old(inputBuffer.Contents()) + if got.Delivered? then got.bytes else []
      ensures conn == if n == 0 then Connection.HandleClose(old(conn)) else old(conn)
      ensures loop.pendingFunctors == old(loop.pendingFunctors)
                + if n == 0 && serverSharesLoop then [Destroyed(id)] else []
    {
      var savedErrno;
      n, savedErrno := inputBuffer.ReadFd(got);
      if n == 0 {
        HandleClose();
      }
    }

    method HandleWrite() returns (ghost w: int)
      requires Valid() && InLoop()
      modifies this`conn, loop, socket, handler, handler.poller, outputBuffer
      ensures Valid() && InLoop() && -1 <= w <= |old(conn).out|
      ensures conn == Connection.HandleWrite(old(conn), w).conn
      ensures socket.calls == old(socket.calls)
                + if old(conn).reg.IsWriting() then [WriteCall(old(conn).out, w)] else []
      ensures loop.pendingFunctors == old(loop.pendingFunctors)
                + if Connection.HandleWrite(old(conn), w).completes then [WriteComplete(id)] else []
    {
      w := -1;
      if handler.IsWriting() {
        w := WriteSome();
      }
    }

    /** The branch of handleWrite that writes. */
    method WriteSome() returns (ghost w: int)
      requires Valid() && InLoop() && conn.reg.IsWriting()
      modifies this`conn, loop, socket, handler, handler.poller, outputBuffer
      ensures Valid() && InLoop() && -1 <= w <= |old(conn).out|
      ensures conn == if w > 0 && w == |old(conn).out| then WithoutBacklog(AfterWrite(old(conn), w))
                      else AfterWrite(old(conn), w)
      ensures socket.calls == old(socket.calls) + [WriteCall(old(conn).out, w)]
      ensures loop.pendingFunctors == old(loop.pendingFunctors)
                + if w > 0 && w == |old(conn).out| && notify then [WriteComplete(id)] else []
    {
      var n := WriteBacklog();
      w := n;
      if n > 0 && outputBuffer.ReadableBytes() == 0 {
        BacklogGone();
      }
    }

    /** write(2) of the whole backlog, and retrieve of what it took. */
    method WriteBacklog() returns (n: int)
      requires Valid()
      modifies this`conn, socket, outputBuffer
      ensures Valid() && -1 <= n <= |old(conn).out|
      ensures conn == AfterWrite(old(conn), n)
      ensures socket.calls == old(socket.calls) + [WriteCall(old(outputBuffer.Contents()), n)]
    {
      n := socket.Write(outputBuffer.Peek());
      conn := AfterWrite(conn, n);
      if n > 0 {
        outputBuffer.Retrieve(n);
      }
    }

    method StopWriting()
      requires Valid()
      modifies this`conn, handler, handler.poller
      ensures Valid() && conn == old(conn).(reg := DisableWriting(old(conn).reg))
    {
      conn := conn.(reg := DisableWriting(conn.reg));
      handler.DisableWriting();
    }

    /** The backlog is written: no more interest, the completion, and the delayed half-close. */
    method BacklogGone()
      requires Valid() && InLoop()
      modifies this`conn, loop, socket, handler, handler.poller
      ensures Valid() && InLoop()
      ensures conn == WithoutBacklog(old(conn)) && socket.calls == old(socket.calls)
      ensures loop.pendingFunctors == old(loop.pendingFunctors) + if notify then [WriteComplete(id)] else []
    {
      StopWriting();
      if notify {
        Queue(WriteComplete(id));
      }
      if state == Disconnecting {
        ShutdownInLoop();
      }
    }

    /** The close branch of m_handleEvent. */
    method HupEvent(revents: Mask)
      requires Valid() && InLoop()
      requires revents.hup && !revents.input ==> state == Connected || state == Disconnecting
      modifies this`state, this`conn, handler, handler.poller, loop
      ensures Valid() && InLoop() && conn == HupBranch(old(conn), revents)
      ensures loop.pendingFunctors == old(loop.pendingFunctors)
                + if revents.hup && !revents.input && serverSharesLoop then [Destroyed(id)] else []
    {
      if revents.hup && !revents.input {
        HandleClose();
      }
    }

    /** The read branch. */
    method ReadEvent(revents: Mask, got: ReadResult)
      requires Valid() && InLoop()
      requires got.Delivered? ==> |got.bytes| <= inputBuffer.data.Length - inputBuffer.writerIndex + 65536
      requires (revents.input || revents.pri || revents.rdhup) && got == Delivered([]) ==>
                 state == Connected || state == Disconnecting
      modifies this`state, this`conn, handler, handler.poller, loop, inputBuffer, inputBuffer.data
      ensures Valid() && InLoop()
      ensures conn == ReadBranch(old(conn), revents, if got.Delivered? then |got.bytes| else -1)
      ensures inputBuffer.Contents() == old(inputBuffer.Contents())
                + if (revents.input || revents.pri || revents.rdhup) && got.Delivered? then got.bytes else []
      ensures loop.pendingFunctors == old(loop.pendingFunctors)
                + if (revents.input || revents.pri || revents.rdhup) && got == Delivered([]) && serverSharesLoop
                  then [Destroyed(id)] else []
    {
      if revents.input || revents.pri || revents.rdhup {
        var n := HandleRead(got);
      }
    }

    /** The write branch. */
    method WriteEvent(revents: Mask) returns (ghost w: int)
      requires Valid() && InLoop()
      modifies this`conn, loop, socket, handler, handler.poller, outputBuffer
      ensures Valid() && InLoop() && -1 <= w <= |old(conn).out|
      ensures conn == WriteBranch(old(conn), revents, w).conn
      ensures socket.calls == old(socket.calls)
                + if revents.out && old(conn).reg.IsWriting() then [WriteCall(old(conn).out, w)] else []
      ensures loop.pendingFunctors == old(loop.pendingFunctors)
                + if revents.out && old(conn).reg.IsWriting() && 0 < w == |old(conn).out| && notify
                  then [WriteComplete(id)] else []
    {
      w := -1;
      if revents.out {
        w := HandleWrite();
      }
    }

    /** The flags and the read that close a connection. */
    static predicate ClosedBy(r: Mask, got: ReadResult) {
      (r.hup && !r.input) || ((r.input || r.pri || r.rdhup) && got == Delivered([]))
    }

    /**
     * m_handleEvent with this connection's callbacks: close, (error,) read and
     * write, in that order, each by its flags. `got` is what readv(2) would find.
     * Excluded is what fails the assert of handleClose: a close, or an end of file,
     * when the connection is closed already, be it by the branch before. `read` is
     * the connection between the read branch and the write branch.
     */
    method HandleEvent(got: ReadResult) returns (ghost read: Conn, ghost w: int)
      requires Valid() && InLoop()
      requires got.Delivered? ==> |got.bytes| <= inputBuffer.data.Length - inputBuffer.writerIndex + 65536
      requires var r, open := handler.revents, state == Connected || state == Disconnecting;
               && (r.hup && !r.input ==> open)
               && ((r.input || r.pri || r.rdhup) && got == Delivered([]) ==> open && !(r.hup && !r.input))
      modifies this`state, this`conn, handler, handler.poller, loop, socket, inputBuffer, inputBuffer.data, outputBuffer
      ensures Valid() && InLoop()
      ensures var n, r := if got.Delivered? then |got.bytes| else -1, old(handler.revents);
              read == ReadBranch(HupBranch(old(conn), r), r, n)
      ensures var r := old(handler.revents);
              && -1 <= w <= |read.out| && conn == WriteBranch(read, r, w).conn
              && socket.calls == old(socket.calls)
                   + (if r.out && read.reg.IsWriting() then [WriteCall(read.out, w)] else [])
              && loop.pendingFunctors == old(loop.pendingFunctors)
                   + (if ClosedBy(r, got) && serverSharesLoop then [Destroyed(id)] else [])
                   + (if r.out && read.reg.IsWriting() && 0 < w == |read.out| && notify
                      then [WriteComplete(id)] else [])
      ensures var r := old(handler.revents);
              inputBuffer.Contents() == old(inputBuffer.Contents())
                + if (r.input || r.pri || r.rdhup) && got.Delivered? then got.bytes else []
    {
      var revents := handler.revents;
      CloseOrRead(revents, got);
      read := conn;
      ghost var arrived := inputBuffer.Contents();
      w := WriteEvent(revents);
      assert inputBuffer.Contents() == arrived;
    }

    /** The branches before the write branch. */
    method CloseOrRead(revents: Mask, got: ReadResult)
      requires Valid() && InLoop()
      requires got.Delivered? ==> |got.bytes| <= inputBuffer.data.Length - inputBuffer.writerIndex + 65536
      requires var open := state == Connected || state == Disconnecting;
               && (revents.hup && !revents.input ==> open)
               && ((revents.input || revents.pri || revents.rdhup) && got == Delivered([]) ==>
                     open && !(revents.hup && !revents.input))
      modifies this`state, this`conn, handler, handler.poller, loop, inputBuffer, inputBuffer.data
      ensures Valid() && InLoop()
      ensures conn == ReadBranch(HupBranch(old(conn), revents), revents, if got.Delivered? then |got.bytes| else -1)
      ensures inputBuffer.Contents() == old(inputBuffer.Contents())
                + if (revents.input || revents.pri || revents.rdhup) && got.Delivered? then got.bytes else []
      ensures loop.pendingFunctors == old(loop.pendingFunctors)
                + if ClosedBy(revents, got) && serverSharesLoop then [Destroyed(id)] else []
    {
      ghost var queued := loop.pendingFunctors;
      HupEvent(revents);
      ReadEvent(revents, got);
      OneCloses(queued, loop.pendingFunctors, revents, got);
    }

    /** Of the two branches that close at most one does. */
    lemma OneCloses(before: seq<Functor>, after: seq<Functor>, r: Mask, got: ReadResult)
      requires !(r.hup && !r.input && (r.pri || r.rdhup) && got == Delivered([]))
      requires after == (before + if r.hup && !r.input && serverSharesLoop then [Destroyed(id)] else [])
                          + if (r.input || r.pri || r.rdhup) && got == Delivered([]) && serverSharesLoop
                            then [Destroyed(id)] else []
      ensures after == before + if ClosedBy(r, got) && serverSharesLoop then [Destroyed(id)] else []
    {
      NothingAdded(before);
      NothingAdded(before + [Destroyed(id)]);
    }
  }
}
