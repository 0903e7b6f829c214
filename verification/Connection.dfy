/**
 * TcpConnection as transitions on values: one function for each handler of the
 * source, over the connection's state, its registration, its two byte streams
 * and a record of what happened to it.
 */
module Connection {
  import opened Basics
  import opened Registration

  type ConnId = nat

  /** What the library itself hands to queueInLoop, and anything a user hands it. */
  datatype Functor =
    | SendLater(conn: ConnId, msg: Msg)    // sendInLoop, from another thread's send
    | WriteComplete(conn: ConnId)          // m_writeCompleteCB
    | Established(conn: ConnId)            // connectionEstablished
    | Destroyed(conn: ConnId)              // connectionDestroyed
    | User(id: nat)

  /** A message handed to send, and the thread that handed it. */
  datatype Msg = Msg(from: Tid, bytes: seq<byte>)

  datatype StateE = Disconnected | Connecting | Connected | Disconnecting

  datatype Conn = Conn(
    state: StateE,
    reg: Reg,
    notify: bool,            // m_writeCompleteCB is set
    out: seq<byte>,          // readable bytes of m_outputBuffer
    wire: seq<byte>,         // what write(2) accepted so far
    ran: seq<Msg>,           // the messages sendInLoop was called with
    fins: nat,               // calls of shutdownWrite
    finRan: seq<Msg>,        // `ran` and `wire` at the latest of them
    finWire: seq<byte>,
    closes: nat,             // calls of handleClose
    destroyed: nat,          // calls of connectionDestroyed
    downs: nat,              // calls of m_connectionCB with the connection down
    sentAfterFin: bool,      // sendInLoop was called after a shutdownWrite
    wroteAfterFin: bool,     // write(2) was called after a shutdownWrite
    lateSend: bool,          // sendInLoop was called on a closed connection
    badAssert: bool          // an assert on m_state failed
  ) {

    predicate Open() {
      state == Connected || state == Disconnecting
    }

    /** sendInLoop writes at once: no interest in writing, and no backlog. */
    predicate Direct() {
      !reg.IsWriting() && out == []
    }

    /** No byte lost, duplicated or reordered: the wire and the backlog are the messages, whole and in order. */
    ghost predicate BytesConserved() {
      wire + out == Text(ran)
    }

    /** While the connection is open, it reads, and it waits to write exactly when there is a backlog. */
    ghost predicate InterestMatchesBacklog() {
      Open() ==> reg.state == Added && reg.IsReading() && (reg.IsWriting() <==> out != [])
    }

    /** What was on the wire when the write side was shut, and that it stayed the last of it. */
    ghost predicate HalfCloseIsGraceful() {
      && (0 < fins ==> state == Disconnecting || state == Disconnected)
      && finRan <= ran && finWire <= wire && finWire == Text(finRan)
      && (!sentAfterFin ==> fins <= 1)
      && (wroteAfterFin <==> sentAfterFin) && (sentAfterFin ==> 0 < fins)
      && (!sentAfterFin && fins == 1 ==> finRan == ran && finWire == wire)
    }

    /** How often it was closed and torn down, and what that left of the registration. */
    ghost predicate ClosedInOrder() {
      && (state == Disconnected <==> 0 < closes + destroyed)
      && downs == closes + destroyed
      && (lateSend ==> state == Disconnected && (0 < fins ==> sentAfterFin))
      && (!lateSend ==> closes <= 1 && !badAssert)
      && (!lateSend && state == Disconnected ==> reg.state != Added)
      && (!lateSend && 0 < destroyed ==> reg == FRESH)
    }

    ghost predicate Ok() {
      && BytesConserved()
      && reg.Ok()
      && InterestMatchesBacklog()
      && HalfCloseIsGraceful()
      && ClosedInOrder()
      && (state == Connecting ==> reg == FRESH && ran == [] && out == [])
    }
  }

  /** Whole messages, one after the other. */
  function Text(msgs: seq<Msg>): seq<byte> {
    if |msgs| == 0 then [] else Text(msgs[..|msgs| - 1]) + msgs[|msgs| - 1].bytes
  }

  lemma TextSnoc(msgs: seq<Msg>, m: Msg)
    ensures Text(msgs + [m]) == Text(msgs) + m.bytes
  {
    assert (msgs + [m])[..|msgs|] == msgs;
  }

  /** The constructor: not yet registered. */
  function Created(notify: bool): (k: Conn) {
    Conn(Connecting, FRESH, notify, [], [], [], 0, [], [], 0, 0, 0, false, false, false, false)
  }

  /** A step that may also queue the write-complete callback. */
  datatype Done = Done(conn: Conn, completes: bool)

  /** How much of the message the first write takes, if there is one. */
  function Taken(k: Conn, m: Msg, w: int): (n: nat)
    requires -1 <= w <= |m.bytes|
    ensures n <= |m.bytes|
  {
    if k.Direct() && 0 <= w then w else 0
  }

  function Wrote(k: Conn, m: Msg, w: int): Conn
    requires -1 <= w <= |m.bytes|
  {
    k.(ran := k.ran + [m],
       wire := k.wire + m.bytes[..Taken(k, m, w)],
       sentAfterFin := k.sentAfterFin || 0 < k.fins,
       wroteAfterFin := k.wroteAfterFin || (k.Direct() && 0 < k.fins),
       lateSend := k.lateSend || k.state == Disconnected)
  }

  /** What is left joins the backlog, and the handler waits to write. */
  function Kept(k: Conn, rest: seq<byte>): Conn {
    if rest == [] then k
    else k.(out := k.out + rest, reg := if k.reg.IsWriting() then k.reg else EnableWriting(k.reg))
  }

  /** sendInLoop; `w` is what write(2) returns if it is called. */
  function SendInLoop(k: Conn, m: Msg, w: int): Done
    requires -1 <= w <= |m.bytes|
  {
    var n := Taken(k, m, w);
    Done(Kept(Wrote(k, m, w), m.bytes[n..]), k.Direct() && 0 <= w && |m.bytes| - n == 0 && k.notify)
  }

  /** `send` on the loop thread: ignored unless connected. */
  function Send(k: Conn, m: Msg, w: int): Done
    requires -1 <= w <= |m.bytes|
  {
    if k.state == Connected then SendInLoop(k, m, w) else Done(k, false)
  }

  function ShutdownInLoop(k: Conn): Conn {
    if k.reg.IsWriting() then k
    else k.(fins := k.fins + 1, finRan := k.ran, finWire := k.wire)
  }

  /** `shutdown` on the loop thread. */
  function Shutdown(k: Conn): Conn {
    if k.state == Connected then ShutdownInLoop(k.(state := Disconnecting)) else k
  }

  /** write(2) took `w` bytes of the backlog, and they are retrieved. */
  function Moved(k: Conn, w: nat): Conn
    requires w <= |k.out|
  {
    k.(wire := k.wire + k.out[..w], out := k.out[w..])
  }

  /** The write of the backlog, whatever came of it. */
  function AfterWrite(k: Conn, w: int): Conn
    requires w <= |k.out|
  {
    var tried := k.(wroteAfterFin := k.wroteAfterFin || 0 < k.fins);
    if w > 0 then Moved(tried, w) else tried
  }

  /** The backlog is gone: no more interest, and the half-close that waited for this. */
  function WithoutBacklog(k: Conn): Conn {
    var drained := k.(reg := DisableWriting(k.reg));
    if k.state == Disconnecting then ShutdownInLoop(drained) else drained
  }

  /** handleWrite; `w` is what write(2) returns if it is called. */
  function HandleWrite(k: Conn, w: int): Done
    requires -1 <= w <= |k.out|
  {
    if !k.reg.IsWriting() then Done(k, false)
    else if w > 0 && w == |k.out| then Done(WithoutBacklog(AfterWrite(k, w)), k.notify)
    else Done(AfterWrite(k, w), false)
  }

  function ConnectionEstablished(k: Conn): Conn {
    k.(state := Connected, reg := EnableReading(k.reg), badAssert := k.badAssert || k.state != Connecting)
  }

  function HandleClose(k: Conn): Conn {
    k.(state := Disconnected, reg := DisableAll(k.reg), closes := k.closes + 1, downs := k.downs + 1,
       badAssert := k.badAssert || !k.Open())
  }

  /** The stray semicolon of the source makes the first part unconditional. */
  function ConnectionDestroyed(k: Conn): Conn {
    k.(state := Disconnected, reg := Remove(DisableAll(k.reg)), downs := k.downs + 1, destroyed := k.destroyed + 1)
  }

  // The branches of Handler::m_handleEvent, in their order.

  function HupBranch(k: Conn, revents: Mask): Conn {
    if revents.hup && !revents.input then HandleClose(k) else k
  }

  /** `n` is what readFd returns. */
  function ReadBranch(k: Conn, revents: Mask, n: int): Conn {
    if (revents.input || revents.pri || revents.rdhup) && n == 0 then HandleClose(k) else k
  }

  function WriteBranch(k: Conn, revents: Mask, w: int): Done
    requires -1 <= w <= |k.out|
  {
    if revents.out then HandleWrite(k, w) else Done(k, false)
  }

  // ------------------------------------------------------------ every step keeps Ok

  lemma CreatedOk(notify: bool)
    ensures Created(notify).Ok()
  {
  }

  lemma SendConserves(k: Conn, m: Msg, w: int)
    requires -1 <= w <= |m.bytes| && k.BytesConserved()
    ensures SendInLoop(k, m, w).conn.BytesConserved()
  {
    TextSnoc(k.ran, m);
    var n := Taken(k, m, w);
    assert m.bytes == m.bytes[..n] + m.bytes[n..];
    if k.out == [] {
      NothingAdded(k.wire);
      NothingAdded(m.bytes[n..]);
      Regroup(k.wire, m.bytes[..n], m.bytes[n..]);
    } else {
      assert n == 0 && m.bytes[..0] == [] && m.bytes[0..] == m.bytes;
      NothingAdded(k.wire);
      Regroup(k.wire, k.out, m.bytes);
    }
  }

  lemma SendKeepsHalfClose(k: Conn, m: Msg, w: int)
    requires -1 <= w <= |m.bytes| && k.HalfCloseIsGraceful()
    requires 0 < k.fins && !k.sentAfterFin ==> k.Direct()
    ensures SendInLoop(k, m, w).conn.HalfCloseIsGraceful()
  {
  }

  /** The new mask and the new backlog of sendInLoop, and nothing else about it. */
  lemma SendInterest(k: Conn, m: Msg, w: int)
    requires -1 <= w <= |m.bytes| && k.reg.Ok()
    ensures var t := SendInLoop(k, m, w).conn;
            && t.reg.Ok() && t.state == k.state
            && (t.reg == k.reg
                || (t.reg == EnableWriting(k.reg) && t.out != [] && t.reg.state == Added && t.reg.IsWriting()))
            && (k.out != [] ==> t.out != [])
            && (t.out != [] && k.out == [] ==> t.reg.IsWriting())
            && (k.reg.IsWriting() ==> t.reg.IsWriting())
            && (k.reg.IsReading() ==> t.reg.IsReading())
  {
    UpdateAgrees(k.reg, k.reg.events.Or(WRITE_EVENT));
  }

  lemma SendInLoopKeepsOk(k: Conn, m: Msg, w: int)
    requires -1 <= w <= |m.bytes| && k.Ok() && k.state != Connecting
    ensures SendInLoop(k, m, w).conn.Ok()
  {
    SendConserves(k, m, w);
    SendInterest(k, m, w);
    if 0 < k.fins && !k.sentAfterFin {
      NothingAfterFin(k);
    }
    SendKeepsHalfClose(k, m, w);
    SendKeepsClosed(k, m, w);
  }

  lemma SendKeepsClosed(k: Conn, m: Msg, w: int)
    requires -1 <= w <= |m.bytes| && k.ClosedInOrder() && k.HalfCloseIsGraceful()
    ensures SendInLoop(k, m, w).conn.ClosedInOrder()
  {
  }

  lemma ShutdownInLoopKeepsOk(k: Conn)
    requires k.Ok() && k.state == Disconnecting && (k.fins == 0 || k.sentAfterFin)
    ensures ShutdownInLoop(k).Ok()
  {
    NothingAdded(k.wire);
  }

  lemma ShutdownKeepsOk(k: Conn)
    requires k.Ok()
    ensures Shutdown(k).Ok()
  {
    if k.state == Connected {
      assert k.(state := Disconnecting).Ok();
      ShutdownInLoopKeepsOk(k.(state := Disconnecting));
    }
  }

  /** After a FIN that no send followed there is nothing left to write, and no interest in writing. */
  lemma NothingAfterFin(k: Conn)
    requires k.Ok() && 0 < k.fins && !k.sentAfterFin
    ensures k.out == [] && !k.reg.IsWriting() && k.wire == Text(k.ran)
  {
    assert |k.wire + k.out| == |k.wire|;
  }

  /** Everything in Ok but the interest in writing, which follows the backlog. */
  ghost predicate OkButInterest(k: Conn) {
    && k.BytesConserved()
    && k.reg.Ok()
    && k.HalfCloseIsGraceful()
    && k.ClosedInOrder()
    && (k.state == Connecting ==> k.reg == FRESH && k.ran == [] && k.out == [])
    && (k.Open() ==> k.reg.state == Added && k.reg.IsReading())
  }

  lemma MovedKeepsOkButInterest(k: Conn, w: nat)
    requires w <= |k.out| && OkButInterest(k)
    requires 0 < k.fins ==> k.sentAfterFin
    ensures OkButInterest(Moved(k, w))
  {
    assert (k.wire + k.out[..w]) + k.out[w..] == k.wire + k.out;
  }

  lemma DisableWritingKeepsOkButInterest(k: Conn)
    requires OkButInterest(k) && k.reg.state == Added && (k.Open() || k.lateSend)
    ensures OkButInterest(k.(reg := DisableWriting(k.reg))) && !DisableWriting(k.reg).IsWriting()
  {
    UpdateAgrees(k.reg, k.reg.events.AndNot(WRITE_EVENT));
  }

  lemma TriedKeepsOk(k: Conn)
    requires k.Ok() && k.reg.IsWriting()
    ensures k.(wroteAfterFin := k.wroteAfterFin || 0 < k.fins).Ok()
    ensures 0 < k.fins ==> k.sentAfterFin
    ensures k.reg.state == Added && (k.Open() || k.lateSend)
  {
    if 0 < k.fins && !k.sentAfterFin {
      NothingAfterFin(k);
    }
  }

  /** A send that runs after the FIN, of whatever length, calls write(2) on the shut socket. */
  lemma SendAfterFinWrites(k: Conn, m: Msg, w: int)
    requires k.Ok() && 0 < k.fins && -1 <= w <= |m.bytes|
    ensures !k.sentAfterFin ==> !k.wroteAfterFin && SendInLoop(k, m, w).conn.wroteAfterFin
  {
    if !k.sentAfterFin {
      NothingAfterFin(k);
    }
  }

  lemma HandleWriteKeepsOk(k: Conn, w: int)
    requires -1 <= w <= |k.out| && k.Ok()
    ensures HandleWrite(k, w).conn.Ok()
  {
    if k.reg.IsWriting() && w <= 0 {
      TriedKeepsOk(k);
    } else if k.reg.IsWriting() {
      TriedKeepsOk(k);
      var tried := k.(wroteAfterFin := k.wroteAfterFin || 0 < k.fins);
      MovedKeepsOkButInterest(tried, w);
      var moved := Moved(tried, w);
      if moved.out == [] {
        DisableWritingKeepsOkButInterest(moved);
        var drained := moved.(reg := DisableWriting(k.reg));
        assert drained.Ok();
        if k.state == Disconnecting {
          ShutdownInLoopKeepsOk(drained);
        }
      }
    }
  }

  lemma EstablishedKeepsOk(k: Conn)
    requires k.Ok() && k.state == Connecting
    ensures ConnectionEstablished(k).Ok()
  {
    UpdateAgrees(k.reg, k.reg.events.Or(READ_EVENT));
  }

  /** A close that the kernel reported: the handler was registered. */
  lemma HandleCloseKeepsOk(k: Conn)
    requires k.Ok() && k.reg.state == Added
    ensures HandleClose(k).Ok()
  {
    UpdateAgrees(k.reg, NONE_EVENT);
  }

  lemma DestroyedKeepsOk(k: Conn)
    requires k.Ok()
    ensures ConnectionDestroyed(k).Ok()
  {
    TeardownFromAnyState(k.reg);
  }

  // ------------------------------------------------------------ what single steps promise

  /**
   * The source asserts `remaining < len` after the write. That fails exactly
   * when nothing was written, which a backlog alone already forces; the model
   * goes on, as the lines after the assert plainly mean to.
   */
  lemma StrictAssertFailsExactly(k: Conn, m: Msg, w: int)
    requires -1 <= w <= |m.bytes| && k.Ok()
    ensures var t := SendInLoop(k, m, w).conn;
            var remaining := |m.bytes| - (|t.wire| - |k.wire|);
            && 0 <= remaining <= |m.bytes|
            && (!(remaining < |m.bytes|) <==> !k.Direct() || w <= 0)
  {
  }

  /** For one, on a new connection whose first write would block. */
  lemma StrictAssertFails(m: Msg)
    ensures var k := ConnectionEstablished(Created(false));
            var remaining := |m.bytes| - (|SendInLoop(k, m, -1).conn.wire| - |k.wire|);
            k.Direct() && !(remaining < |m.bytes|)
  {
  }

  /** One completion for a message written whole at once, none otherwise; then the wire holds every byte given. */
  lemma SendCompletesExactly(k: Conn, m: Msg, w: int)
    requires -1 <= w <= |m.bytes| && k.Ok() && k.state != Connecting
    ensures var d := SendInLoop(k, m, w);
            && (d.completes <==> k.notify && k.Direct() && w == |m.bytes|)
            && (d.completes ==> d.conn.out == [] && d.conn.wire == Text(k.ran) + m.bytes)
  {
    SendConserves(k, m, w);
    TextSnoc(k.ran, m);
    var t := SendInLoop(k, m, w).conn;
    NothingAdded(t.wire);
  }

  /** One completion for the event that empties the backlog, none otherwise; then the wire holds every byte given. */
  lemma WriteCompletesExactly(k: Conn, w: int)
    requires -1 <= w <= |k.out| && k.Ok() && k.Open()
    ensures var d := HandleWrite(k, w);
            && (d.completes <==> k.notify && k.out != [] && w == |k.out|)
            && (d.completes ==> d.conn.out == [] && d.conn.wire == Text(k.ran))
            && (d.conn.fins != k.fins ==> d.conn.out == [] && d.conn.wire == Text(k.ran) && k.state == Disconnecting)
  {
    if k.reg.IsWriting() && w > 0 && w == |k.out| {
      BacklogWritten(k, w);
    }
  }

  /** The write that takes the whole backlog. */
  lemma BacklogWritten(k: Conn, w: nat)
    requires k.BytesConserved() && k.out != [] && w == |k.out|
    ensures var t := WithoutBacklog(AfterWrite(k, w));
            && t.out == [] && t.wire == Text(k.ran)
            && (t.fins != k.fins ==> k.state == Disconnecting)
  {
    assert k.out[..w] == k.out && k.out[w..] == [];
  }

  /** A run of write-ready events: the kernel takes as much of the backlog as it has room for. */
  function Drain(k: Conn, room: seq<nat>): (r: (Conn, nat))
    decreases |room|
  {
    if room == [] then (k, 0)
    else
      var d := HandleWrite(k, if room[0] < |k.out| then room[0] else |k.out|);
      var (last, completions) := Drain(d.conn, room[1..]);
      (last, completions + if d.completes then 1 else 0)
  }

  lemma {:induction false} DrainedStaysDrained(k: Conn, room: seq<nat>)
    requires !k.reg.IsWriting()
    ensures Drain(k, room) == (k, 0)
  {
    if room != [] {
      DrainedStaysDrained(k, room[1..]);
    }
  }

  /** One write that moves something: the backlog is shorter by it, and if that was all, everything is done. */
  lemma WriteProgress(k: Conn, w: nat)
    requires k.Ok() && k.Open() && 0 < w <= |k.out|
    ensures var (t, completes) := (HandleWrite(k, w).conn, HandleWrite(k, w).completes);
            && t.Ok() && t.state == k.state && t.notify == k.notify && t.ran == k.ran && |t.out| == |k.out| - w
            && (completes <==> k.notify && t.out == [])
            && (t.out == [] ==> !t.reg.IsWriting() && t.wire == Text(k.ran))
            && t.fins == k.fins + (if t.out == [] && k.state == Disconnecting then 1 else 0)
  {
    HandleWriteKeepsOk(k, w);
    NothingAdded(HandleWrite(k, w).conn.wire);
  }

  /**
   * If no send or close intervenes and every write moves at least one byte, the
   * backlog is gone after at most as many events as it had bytes, with exactly
   * one completion and, if the connection was shutting down, exactly one FIN.
   */
  lemma {:induction false} DrainEmptiesBacklog(k: Conn, room: seq<nat>)
    requires k.Ok() && k.Open() && k.out != []
    requires |k.out| <= |room| && forall i | 0 <= i < |room| :: 0 < room[i]
    ensures var (last, completions) := Drain(k, room);
            && last.out == [] && last.wire == Text(k.ran) && !last.reg.IsWriting()
            && last.state == k.state && last.Ok()
            && completions == (if k.notify then 1 else 0)
            && last.fins == k.fins + (if k.state == Disconnecting then 1 else 0)
    decreases |room|
  {
    var w := if room[0] < |k.out| then room[0] else |k.out|;
    var t := HandleWrite(k, w).conn;
    WriteProgress(k, w);
    if t.out == [] {
      DrainedStaysDrained(t, room[1..]);
    } else {
      DrainEmptiesBacklog(t, room[1..]);
    }
  }

  /**
   * handleClose's assert within one dispatch of a registered connection: it
   * fails exactly when the close branch and an end of file both fire.
   */
  lemma SecondCloseExactly(k: Conn, revents: Mask, n: int)
    requires k.Ok() && k.Open() && !k.badAssert
    ensures ReadBranch(HupBranch(k, revents), revents, n).badAssert
       <==> revents.hup && !revents.input && (revents.pri || revents.rdhup) && n == 0
  {
  }

  /** For one, when the peer of an established connection has shut both ways and the end of file is read. */
  lemma SecondClose()
    ensures var revents := NONE_EVENT.(hup := true, rdhup := true);
            var t := ReadBranch(HupBranch(ConnectionEstablished(Created(false)), revents), revents, 0);
            t.closes == 2 && t.badAssert
  {
  }

  /**
   * A send that comes after the close puts a handler that is not in the kernel's set
   * back there if and only if the write leaves a byte over, be it the first such send
   * or one after connectionDestroyed; and another close fails its assert.
   */
  lemma LateSendRegistersExactly(k: Conn, m: Msg, w: int)
    requires -1 <= w <= |m.bytes| && k.Ok() && k.state == Disconnected && k.reg.kernel.None?
    ensures var t := SendInLoop(k, m, w).conn;
            && (t.reg.kernel.Some? <==> (if k.out == [] && w > 0 then w else 0) < |m.bytes|)
            && HandleClose(t).badAssert
  {
    var t := SendInLoop(k, m, w).conn;
    SendInterest(k, m, w);
    assert k.Direct() <==> k.out == [];
    var rest := m.bytes[Taken(k, m, w)..];
    if rest != [] {
      assert t.reg == EnableWriting(k.reg);
      UpdateIsKnown(k.reg, k.reg.events.Or(WRITE_EVENT));
    }
  }
}
