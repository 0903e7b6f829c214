# A verified model of the reactor

The repository is an event-driven network library: one thread runs an event
loop over `epoll`, other threads hand it work through a queue and an `eventfd`,
and each connection keeps two byte buffers and decides when it wants to be told
that its socket can be written. This project states in Dafny what that code
does and proves what it promises, from the bytes of a buffer up to every
interleaving of any number of threads with the loop.

`dafny verify dfyconfig.toml` checks everything.

## How it is built

| file | what it holds |
|---|---|
| `Buffer.dfy`, `Codec.dfy` | `Buffer` as a class over its byte array, and the integers it stores in network order |
| `BufferHistory.dfy` | what holds of a buffer over its whole life |
| `Registration.dfy` | one handler's registration as a value: the handler, the poller's map and the kernel |
| `Poller.dfy` | `Handler` and `EPollPoller` as classes: many handlers on one epoll descriptor |
| `Connection.dfy` | `TcpConnection` as transitions on a value, with its run recorded |
| `TcpConnection.dfy` | `TcpConnection` as a class over its buffers, its handler and its loop; each method is the transition of the same name |
| `LoopProtocol.dfy` | `EventLoop` as a state machine: every statement another thread can observe is a step |
| `EventLoop.dfy` | `EventLoop` as a class whose every execution is a run of that machine |
| `ThreadPool.dfy` | the round robin that deals out loops |
| `Reactor.dfy` | loop, connections, user code and other threads together, as one state machine |
| `ReactorInvariant.dfy`, `ReactorSteps.dfy` | what each step of it keeps |
| `ReactorActions.dfy` | what each call and each event does, step by step, and that what is queued is run |
| `ReactorTheorems.dfy` | what therefore holds in every reachable state |
| `ReactorProgress.dfy` | what no later step takes back, and that the loop thread can always finish what is queued |
| `ReactorFinality.dfy` | the exact conditions under which a half-close, or a close, is the last word |
| `ReactorClosing.dfy`, `ReactorShutdown.dfy` | the same for the harm a late send can do, and for a half-close that a backlog puts off |
| `ReactorCompletions.dfy` | how often a write-complete callback is queued and called |
| `ReactorWitnesses.dfy` | reachable states in which those conditions do not hold |

`Connection`, `Registration` and `NetBuffer.Shape` are the specification: the
class methods are proved to do what these functions say, and the lemmas say what
that is worth.

A value of `Connection.Conn` carries, beside the fields of the source, a record
that the program does not have: the bytes `write` accepted (`wire`), the messages
`sendInLoop` was called with (`ran`), both as they stood at the latest
`shutdownWrite`, and how often the connection was shut, closed and destroyed.

The environment is small. `write` returns -1 or any number of bytes from 0 to
the length and sends exactly that prefix; `readv` fails or delivers any bytes that
fit; `epoll_ctl` refuses to add what is there and to change or delete what is
not; `epoll_wait` reports distinct registered descriptors with flags their mask
asks for, or error flags; an `eventfd` is a saturating counter that a read
resets. A mutex is an atomic step, a flag is read and written atomically, and
thread identity is a parameter. Someone keeps each connection alive as long as it
is in use.

## Where the code and its intent part

* `assert(remaining < len)` in `sendInLoop` fails whenever nothing was written:
  with a backlog, on `EWOULDBLOCK`, on a return of 0, or for an empty message. The lines
  after it only make sense with `<=`, and the model goes on as they do.
  `Connection.StrictAssertFailsExactly` says exactly when the strict form fails.
* The semicolon after the `if` in `connectionDestroyed` makes the block
  unconditional. The model keeps this: the connection-down callback runs twice
  for one close, and `disableAll` is applied to a handler that is already
  deleted, which registers it again until `removeHandler` follows
  (`Registration.DisableAllToggles`, `ReactorTheorems.ClosedOnceDestroyedOnce`).
* A send that tested the state before a close can run after it. Nothing in
  `sendInLoop` looks at the state, so it puts the closed connection back into
  the kernel's set: exactly when is `Connection.LateSendRegistersExactly`, and
  that it happens, and that a second close with a failing assert can follow, are
  `ReactorWitnesses.SendComesTooLate` and `LateSendClosesTwice`. What is claimed of
  closed connections excepts such a send, and `ReactorFinality.CloseIsFinalExactly`
  says at the close whether one can still come, `ReactorClosing.ClosedForGoodExactly`
  whether one can still do harm.
* `shutdown` on the loop thread can overtake a send that another thread has
  queued or is still inside (`ReactorWitnesses.FinOvertakesQueuedSend`,
  `FinOvertakesBegunSend`), even one of no bytes. `ReactorFinality` gives the
  condition: no thread is inside a send on the connection and none is queued for
  it. It is what makes a half-close final, exactly. When a backlog puts the
  half-close off, some of what is on its way is still in time;
  `ReactorShutdown.ShutdownIsGracefulExactly` says at the call what is.
* `loop()` clears `m_bquit` on entry, and `queueInLoop` on the loop thread
  before `loop()` writes no wakeup (`LoopProtocol.QueuedBeforeLoopStalls`). When
  entering `loop()` is safe for what is queued is `LoopProtocol.EntryIsSafeExactly`;
  which quits are honoured is `LoopProtocol.QuitIsHonouredExactly`.
* A hang-up without input but with urgent data or a peer's half-close runs both
  the close and the read branch; with an end of file the second
  `handleClose` fails its assert (`Connection.SecondCloseExactly`). The reactor
  assumes that this combination is not reported.
* The comment that `shutdown` is not thread safe is taken at its word: it is
  called on the loop thread.

## Model

| member | source | states |
|---|---|---|
| ReactorTheorems.WholeMessagesInThreadOrder | TcpConnection.cpp:45-137 | in every reachable state the wire followed by the backlog is a concatenation of whole messages, of each thread the first ones it sent in call order, and of the loop thread all of them |
| ReactorTheorems.NothingForgottenAtRest | EventLoop.cpp:60-116 | a reactor whose loop waits in its poll with nothing signalled and no thread inside a call has run every functor and every accepted message; what an open connection has not written is waiting for an event the kernel will report |
| ReactorProgress.LoopCanAlwaysMove | EventLoop.cpp:60-81 | in every state that keeps the invariant the loop thread has a step to take |
| ReactorProgress.SomeRunEmptiesQueue | EventLoop.cpp:60-81 | from every such state some run of loop steps alone runs every queued functor |
| ReactorProgress.SomeRunComesToRest | EventLoop.cpp:60-116 | from every such state some run ends with the loop at its poll, nothing signalled and no thread inside a call |
| ReactorProgress.RunFollows | TcpConnection.cpp:45-253 | over any run nothing a connection accepted or ran is taken back, a half-close and a close stay, and a message that runs after either is on record as belated |
| ReactorTheorems.AcceptedBytesAccounted | TcpConnection.cpp:97-137 | of each thread's accepted messages the first ones ran and the others are queued, in order; what ran is on the wire and behind it in the backlog, in order; and the bytes of the three add up |
| ReactorTheorems.InterestMatchesBacklogInKernel | TcpConnection.cpp:97-169 | in every reachable state an open connection has a backlog if and only if its handler asks for writability, the kernel's mask equals the handler's, both keep the read bits, and no epoll call was refused |
| ReactorFinality.HalfCloseIsFinalExactly | TcpConnection.cpp:139-155 | once the write side is shut, no run ever writes to it again if and only if no other thread is inside a send on the connection and none, of whatever length, is queued for it (section 3.6 of RFC 9293) |
| ReactorFinality.WireIsFinal | TcpConnection.cpp:139-155 | then in every run from there the write side was shut once, the wire stays as it was, holds every accepted message whole, each thread's in call order, and no further message is accepted |
| ReactorFinality.NoMoreSendsExactly | TcpConnection.cpp:45-155 | once a connection refuses sends, the messages run are its last in every run if and only if no thread is inside a send on it and none is queued |
| ReactorFinality.GracefulHalfClose | TcpConnection.cpp:139-155 | if nothing is on its way when the loop thread calls shutdown, then with or without a backlog every run from there shuts the write side at most once, with all accepted messages whole on the wire, and writes nothing afterwards |
| ReactorFinality.ShutdownIsFinalExactly | TcpConnection.cpp:139-155 | at the call that condition decides whether the messages run by then are the last, and, when there is no backlog, whether anything can be written after the half-close |
| ReactorShutdown.ShutdownIsGracefulExactly | TcpConnection.cpp:139-155 | at any call of shutdown on the loop thread, with or without a backlog: no run writes after the half-close if and only if, without a backlog, nothing is on its way, and with one, either the current dispatch will close the connection, or no thread is inside a send and no send waits for a batch that comes after the next chance to write |
| ReactorShutdown.WaitingIsGracefulExactly | TcpConnection.cpp:204-225 | the same condition at any later moment of user code while the half-close is still put off |
| ReactorClosing.ClosedForGoodExactly | TcpConnection.cpp:241-253 | in every run after a close it is the only one, at most one teardown follows, no assert fails and the kernel's set never has the connection again, if and only if every send that a thread is inside or that is queued is of no bytes |
| ReactorCompletions.OneCompletionPerDelivery | TcpConnection.cpp:102-112 | over every run the completions queued for a connection are as many as the steps that gave the kernel its last byte while the callback was set, and once nothing is left to run the callback was called that often |
| ReactorCompletions.DeliveryIsComplete | TcpConnection.cpp:204-225 | at each of these steps the wire holds every byte the connection was given |
| ReactorFinality.CloseIsFinalExactly | TcpConnection.cpp:241-253 | after a close no run ever sends on the connection if and only if nothing is on its way; this suffices for it to be the only close, with at most one teardown, no failing assert and no registration ever after |
| ReactorFinality.OwnSendsHalfCloseGracefully | TcpConnection.cpp:139-155 | a connection that only the loop thread sends on needs no condition at any call, and its accepted messages are on the wire in one order |
| ReactorFinality.FinCoversAcceptedExactly | TcpConnection.cpp:139-155 | at a half-close the wire is the messages run so far, whole; if none ran since, it holds every byte of the sends queued by now if and only if no byte waits in the queue; of sends still to be queued HalfCloseIsFinalExactly speaks |
| ReactorWitnesses.FinOvertakesQueuedSend | TcpConnection.cpp:61-74 | a reachable state in which the half-close went out and a send that another thread had made is still queued |
| ReactorWitnesses.FinOvertakesBegunSend | TcpConnection.cpp:61-74 | a reachable state in which the half-close went out, nothing is queued or accepted, and a send that is past its test of the state can still be written |
| ReactorTheorems.ClosedOnceDestroyedOnce | TcpServer.cpp:75-87 | closes equal the connectionDestroyed calls still owed, queued or run; without a late send there is at most one of each, no state assert failed, a closed connection is not in the kernel's set, and once destroyed the handler is new again with the down callback run twice; whether a late send can come is CloseIsFinalExactly |
| ReactorTheorems.ActiveHandlersStayRegistered | EventLoop.cpp:68-78 | while handlers are dispatched, every one still to come is in the kernel's set and the current one is in the map |
| ReactorTheorems.OnlyDestroyedUnregisters | EventLoop.cpp:125-134 | the only step that takes a handler out of the map is a connectionDestroyed run as a queued functor, never during dispatch, and it leaves no trace of the handler |
| ReactorWitnesses.SendComesTooLate | TcpConnection.cpp:97-137 | a reachable state in which a closed connection is registered again by a send that began before the close |
| ReactorWitnesses.LateSendClosesTwice | TcpConnection.cpp:241-246 | a reachable state in which it has then been closed a second time and the assert of handleClose failed |
| ReactorTheorems.LoopRefinesProtocol | EventLoop.cpp:60-81 | the loop inside any run of the whole reactor makes a legal run of the loop's own state machine |
| ReactorTheorems.FunctorRunsInTheNextBatch | EventLoop.cpp:106-116 | every functor that anyone queues runs in the batch right after the one current at its push, once and in order of the pushes |
| ReactorActions.AskedRunsInTheNextBatch | EventLoop.cpp:106-116 | what the n-th step of any run hands to queueInLoop, be it a call of a user, a send, an accept, a removal or a completion, is called exactly once, in its own place, in the batch after the one current at that step |
| ReactorActions.OwnQueueTakesEffect | EventLoop.cpp:106-116 | queueInLoop on the loop thread queues the functor last, and owes a wakeup exactly while a batch runs |
| ReactorActions.QueueTakesEffect | EventLoop.cpp:106-116 | on another thread too, and that thread owes the wakeup |
| ReactorActions.QuitTakesEffect | EventLoop.cpp:84-91 | quit sets the flag on either thread; another thread then owes a wakeup, and its wakeup leaves the eventfd readable |
| ReactorActions.OwnSendTakesEffect | TcpConnection.cpp:45-59 | send on the loop thread runs the message at once if the connection is open, writing what write takes if nothing is waiting, and is ignored if not |
| ReactorActions.SendBeginTakesEffect | TcpConnection.cpp:61-74 | on another thread it goes on exactly if the connection is open |
| ReactorActions.SendQueueTakesEffect | TcpConnection.cpp:61-74 | and then the message is accepted and queued as one functor, with a wakeup owed |
| ReactorActions.ShutdownTakesEffect | TcpConnection.cpp:139-155 | an open connection stops accepting, and is half-closed at once exactly if it is not waiting to write |
| ReactorActions.AcceptTakesEffect | TcpServer.cpp:56-73 | a new connection is established and reading at once on the loop's own thread, and by one queued functor from another |
| ReactorActions.RemoveTakesEffect | TcpServer.cpp:80-87 | connectionDestroyed is queued, never called directly, on either thread |
| ReactorActions.PollTakesEffect | EventLoop.cpp:68-70 | the active list is what the poll reported, in its order |
| ReactorActions.HupTakesEffect | Handler.cpp:60-63 | the close branch closes exactly on a hang-up without input |
| ReactorActions.ReadTakesEffect | Handler.cpp:68-71 | the read branch closes exactly when an end of file is read on input, urgent data or a peer's half-close |
| ReactorActions.WriteTakesEffect | Handler.cpp:72-75 | the write branch moves exactly what write takes from the backlog to the wire, if writing is reported and asked for |
| ReactorActions.BodyTakesEffect | EventLoop.cpp:170-173 | what each functor of the library does to its connection and to no other |
| ReactorSteps.ReachableInv | TcpConnection.cpp:97-253 | the invariant that joins loop, queue, connections, senders and dispatch holds after every run, whatever threads, kernel and callbacks do |
| LoopProtocol.NeverStallsWithWork | EventLoop.cpp:60-116 | no lost wakeup and no lost quit in any interleaving: a loop at its poll with an unreadable eventfd and no thread about to write it has an empty queue and was not told to quit |
| LoopProtocol.ApplyKeepsWakeup | EventLoop.cpp:141-175 | phase by phase, each step keeps a nonempty queue or a quit signalled, although the eventfd is reset before the queue is taken |
| LoopProtocol.CallsArePrefixOfPushes | EventLoop.cpp:161-175 | at every step the functors called, the rest of the batch and the queue are together all pushes in their order |
| LoopProtocol.RunsInTheNextBatch | EventLoop.cpp:161-175 | a functor queued while a batch runs goes to the next batch, and is called by the end of it |
| LoopProtocol.BatchIsBounded | EventLoop.cpp:170-173 | until a batch ends it stays the one that was swapped out, and the calls left are exactly its functors left, even if each queues itself again |
| LoopProtocol.EntryIsSafeExactly | EventLoop.cpp:60-66 | every run that enters loop() here keeps its wakeups if and only if the queue is empty or its wakeup is written or on its way |
| LoopProtocol.QueuedBeforeLoopStalls | EventLoop.cpp:106-116 | a functor that the loop thread queues before loop() leaves the loop at a poll that nothing will end early |
| LoopProtocol.QuitIsHonouredExactly | EventLoop.cpp:60-91 | a quit ends the loop at the next test of the flag, in every interleaving, if and only if it is made inside loop() |
| LoopProtocol.QuitStandsExactly | EventLoop.cpp:65-91 | over a run without a further quit the flag stands at the end if and only if it was set and loop() was not entered |
| EventLoops.EventLoop.constructor | EventLoop.cpp:31-52 | a new loop is the machine's start state |
| EventLoops.EventLoop.QueueInLoop | EventLoop.cpp:106-116 | the functor is appended, nothing else of the loop moves, and the eventfd is readable afterwards exactly when the caller is another thread or a batch is running, or it was before |
| EventLoops.EventLoop.Wakeup | EventLoop.cpp:141-149 | the eventfd is readable afterwards, even if the write failed because the counter was full |
| EventLoops.EventLoop.HandleRead | EventLoop.cpp:151-159 | the eventfd is no longer readable, and the machine took the step that resets it |
| EventLoops.EventLoop.Quit | EventLoop.cpp:84-91 | the flag is set, and a quit from another thread leaves the eventfd readable |
| EventLoops.EventLoop.EnterLoop | EventLoop.cpp:60-65 | looping with the quit flag cleared, the queue untouched |
| EventLoops.EventLoop.LoopOnce | EventLoop.cpp:66-80 | one turn calls exactly what was queued before it and by its handlers, leaves exactly what was queued during the batch, and stops only if told to; the eventfd is left with exactly the wakeups written since it was read, or since before if it was not |
| EventLoops.EventLoop.PollAndDispatch | EventLoop.cpp:68-77 | a reported eventfd is read; handlers may queue, and none of it is called yet; the dispatch flag is cleared again |
| EventLoops.EventLoop.DoPendingFunctors | EventLoop.cpp:161-175 | a batch calls what was queued before the swap once each in order and leaves exactly what was queued since, signalled |
| EventLoops.EventLoop.TakeQueue | EventLoop.cpp:163-168 | the whole queue becomes the batch and the queue is empty |
| EventLoops.EventLoop.CallBatch | EventLoop.cpp:170-173 | the loop calls every functor of the batch once and in order while others queue more |
| EventLoops.EventLoop.CallFunctor | EventLoop.cpp:172 | one call, and what is queued before it returns |
| Connection.SendInLoopKeepsOk | TcpConnection.cpp:97-137 | sendInLoop, whatever write returns, keeps byte conservation, interest matching backlog, the half-close and the closing order |
| Connection.SendConserves | TcpConnection.cpp:97-137 | wire and backlog stay the whole messages given, in order, for a full, short, failed or skipped write |
| Connection.HandleWriteKeepsOk | TcpConnection.cpp:204-240 | so does handleWrite, for every return of write |
| Connection.ShutdownKeepsOk | TcpConnection.cpp:139-155 | so does shutdown, which sends the half-close only when nothing is waiting |
| Connection.EstablishedKeepsOk | TcpConnection.cpp:161-169 | so does connectionEstablished, which starts to read and not to write |
| Connection.HandleCloseKeepsOk | TcpConnection.cpp:241-253 | so does handleClose of a registered connection, and its assert holds unless a send came too late |
| Connection.DestroyedKeepsOk | TcpConnection.cpp:171-181 | so does connectionDestroyed, from every registration state |
| Connection.StrictAssertFailsExactly | TcpConnection.cpp:121-124 | the source's assert fails if and only if a backlog or interest forbids the write or the write takes nothing; the weaker one always holds |
| Connection.StrictAssertFails | TcpConnection.cpp:123 | for one, on a new connection whose first write would block |
| Connection.SendCompletesExactly | TcpConnection.cpp:102-112 | a completion is queued if and only if the callback is set and the first write took the whole message, and then the wire holds every byte given |
| Connection.WriteCompletesExactly | TcpConnection.cpp:207-225 | a completion is queued if and only if the callback is set and this event emptied a backlog; then, and at any half-close it makes, the wire holds every byte given |
| Connection.DrainEmptiesBacklog | TcpConnection.cpp:204-225 | with no send or close between and each write moving a byte, the backlog of any open connection is gone after at most as many events as it had bytes, with one completion and, when shutting down, one more half-close |
| Connection.NothingAfterFin | TcpConnection.cpp:148-155 | after a half-close that no send followed nothing is left to write and no interest in writing |
| Connection.SendAfterFinWrites | TcpConnection.cpp:97-105 | the first sendInLoop after a half-close calls write on the shut socket, and nothing did before |
| Connection.SecondCloseExactly | TcpConnection.cpp:241-246 | within one dispatch the assert of handleClose fails if and only if a hang-up without input comes with urgent data or a peer's half-close and an end of file is read |
| Connection.SecondClose | Handler.cpp:60-71 | for one, when both ways are shut by the peer and the end of file is read |
| Connection.LateSendRegistersExactly | TcpConnection.cpp:97-135 | a send after the close, the first or one after connectionDestroyed, puts a handler that is not in the kernel's set back there if and only if the write leaves a byte over, and another close fails its assert |
| TcpConnections.Socket.Write | TcpConnection.cpp:104 | the write of the environment: an error or any prefix, and the call is on record with its data and its result |
| TcpConnections.TcpConnection.constructor | TcpConnection.cpp:21-38 | unregistered, connecting, both buffers empty |
| TcpConnections.TcpConnection.Send | TcpConnection.cpp:61-74 | on the loop thread the transition Send, with its one call of write if nothing is waiting; elsewhere one queued sendInLoop of the bytes, signalled, and no change; nothing unless connected |
| TcpConnections.TcpConnection.SendBuffer | TcpConnection.cpp:76-90 | the same with the buffer's content; the buffer is drained only when another thread calls on an open connection, and otherwise untouched |
| TcpConnections.TcpConnection.HandOver | TcpConnection.cpp:84-87 | the argument's whole content is queued as one sendInLoop, and the argument is left empty |
| TcpConnections.TcpConnection.SendInLoop | TcpConnection.cpp:97-137 | buffers, handler, poller, kernel, socket and queue end as the transition SendInLoop says of the result of the one write of the whole message, made exactly when there is no interest and no backlog |
| TcpConnections.TcpConnection.FirstWrite | TcpConnection.cpp:100-121 | write is called once with the whole message exactly without interest and backlog, and a completion is queued for a message it took whole |
| TcpConnections.TcpConnection.Keep | TcpConnection.cpp:124-135 | the rest joins the output buffer and the handler waits to write |
| TcpConnections.TcpConnection.Shutdown | TcpConnection.cpp:139-146 | the transition Shutdown on the real objects |
| TcpConnections.TcpConnection.ShutdownInLoop | TcpConnection.cpp:148-155 | the write side is shut now, or left to handleWrite when a backlog is waiting |
| TcpConnections.TcpConnection.ConnectionEstablished | TcpConnection.cpp:161-169 | connected and reading |
| TcpConnections.TcpConnection.ConnectionDestroyed | TcpConnection.cpp:171-181 | the descriptor is in neither the map nor the kernel, whatever the state was before |
| TcpConnections.TcpConnection.HandleClose | TcpConnection.cpp:241-253 | disconnected, without events, and a connectionDestroyed queued when the server shares the loop |
| TcpConnections.TcpConnection.HandleRead | TcpConnection.cpp:183-202 | what arrived is appended to the input, an end of file closes, an error changes nothing |
| TcpConnections.TcpConnection.HandleWrite | TcpConnection.cpp:204-240 | with interest in writing write is called once with the whole backlog, and buffers, handler, socket and queue end as the transition HandleWrite says of its result; without interest nothing happens |
| TcpConnections.TcpConnection.WriteBacklog | TcpConnection.cpp:209-212 | one write of the whole backlog; what it took is on the wire and out of the buffer |
| TcpConnections.TcpConnection.BacklogGone | TcpConnection.cpp:213-225 | interest dropped, completion queued, delayed half-close sent |
| TcpConnections.TcpConnection.HupEvent | Handler.cpp:60-63 | closes exactly on a hang-up without input, and queues connectionDestroyed if the server shares the loop |
| TcpConnections.TcpConnection.ReadEvent | Handler.cpp:68-71 | on any of its three flags what arrived is appended to the input, and an end of file closes |
| TcpConnections.TcpConnection.CloseOrRead | Handler.cpp:60-71 | the two together: of their closes at most one happens |
| TcpConnections.TcpConnection.WriteEvent | Handler.cpp:72-75 | exactly one write of the whole backlog if writing is reported and asked for, none otherwise; one completion if it took everything |
| TcpConnections.TcpConnection.HandleEvent | Handler.cpp:57-77 | the close, read and write branches in this order, each by its flags: the connection afterwards, the input grown by what arrived, the write made, and the functors queued |
| Registration.AgreementExactly | EPollPoller.cpp:51-103 | over every sequence of calls on a new handler, no assert fails and epoll refuses nothing if and only if each removal was of a known handler without events; then handler, map and kernel agree |
| Registration.UpdateAgrees | EPollPoller.cpp:51-86 | for any new mask updateHandler brings an agreeing handler, map and kernel to agree on it, and the kernel has the handler unless it had it before and the mask is empty |
| Registration.RemoveFaultsExactly | EPollPoller.cpp:88-103 | removeHandler's asserts fail if and only if the handler is unknown or has events; otherwise it is new again |
| Registration.TeardownFromAnyState | TcpConnection.cpp:171-181 | disableAll then removeHandler works from each of the three states and leaves the handler new, in neither map nor kernel |
| Registration.DisableAllToggles | Handler.h:33 | on a known handler without events, each further disableAll adds it to the kernel or deletes it in turn |
| Registration.OrIsBitwise | Handler.h:30-31 | setting flags field by field is the `or` of the integers of the source |
| Registration.AndNotIsBitwise | Handler.h:32 | clearing them is the `and` with the complement |
| Registration.FieldIsBit | Handler.h:34 | each flag of a mask is the test of its bit in the integer of the source |
| Connection.CreatedOk | TcpConnection.cpp:21-38 | a connection starts with all that its steps keep |
| Registration.CallsOnBits | Handler.h:30-34 | the four calls of the handler as operations on the integer of the source, and the test of isWriting |
| Registration.CtlRefusesExactly | EPollPoller.cpp:123-134 | epoll_ctl refuses exactly an addition of what is there and a change or deletion of what is not, and otherwise the kernel holds the handler's mask |
| Poller.Handler.constructor | Handler.cpp:10-20 | no events, new, unknown to map and kernel |
| Poller.Handler.EnableReading | Handler.h:30 | the read bits are added in handler, map and kernel together, and no other handler is touched |
| Poller.Handler.EnableWriting | Handler.h:31 | the same for the write bit |
| Poller.Handler.DisableWriting | Handler.h:32 | the write bit is taken away, and no other handler is touched |
| Poller.Handler.DisableAll | Handler.h:33 | no events; deleted, or added without events, as the state before says |
| Poller.Handler.RemoveHandler | Handler.cpp:33-37 | the handler is new again and every other one unchanged |
| Poller.EPollPoller.UpdateHandler | EPollPoller.cpp:51-86 | all handlers with distinct descriptors stay agreed upon, no epoll call is refused, only this one's entries change |
| Poller.EPollPoller.Enter | EPollPoller.cpp:56-70 | a new or deleted handler is in the map and added to the kernel with its mask, be it empty |
| Poller.EPollPoller.Change | EPollPoller.cpp:71-85 | an added handler is deleted from the kernel exactly when its mask is empty, else given its new mask |
| Poller.EPollPoller.RemoveHandler | EPollPoller.cpp:88-103 | the same, and its entries are gone |
| Poller.EPollPoller.Update | EPollPoller.cpp:123-134 | epoll_ctl with its refusals |
| Poller.EPollPoller.PollEvent | EPollPoller.cpp:30-49 | distinct registered handlers in the order reported, each with its flags; the event list doubles exactly when it was full |
| Poller.EPollPoller.FillActiveHandlers | EPollPoller.cpp:106-121 | one handler for each event, in order, holding its flags |
| Poller.EPollPoller.Activate | EPollPoller.cpp:111-117 | the registered handler of one more event, distinct from those before, holds its flags |
| Poller.EPollPoller.ReportFitsMap | EPollPoller.cpp:108 | a report is never larger than the handler map, so the assert holds |
| NetBuffer.Buffer.constructor | Buffer.h:18-26 | empty, with 8 bytes to prepend and 1024 to write |
| NetBuffer.Buffer.Swap | Buffer.h:30-35 | contents and blocks change places |
| NetBuffer.Buffer.FindCRLF | Buffer.h:49-61 | the first line end at or after the start, or none if there is none |
| NetBuffer.Buffer.Retrieve | Buffer.h:66-77 | drops the first bytes; an emptied buffer is back at the prepend boundary |
| NetBuffer.Buffer.RetrieveUntil | Buffer.h:79-84 | drops up to a position |
| NetBuffer.Buffer.RetrieveAll | Buffer.h:101-105 | empty, with the prepend area restored |
| NetBuffer.Buffer.RetrieveAsString | Buffer.h:112-118 | what is returned and what is left are the old content |
| NetBuffer.Buffer.RetrieveAllAsString | Buffer.h:107-110 | returns the whole content and leaves none |
| NetBuffer.Buffer.Append | Buffer.h:130-135 | the content grows at its end, across growth and compaction |
| NetBuffer.Buffer.EnsureWritableBytes | Buffer.h:142-149 | room for the length, content unchanged; the assert holds |
| NetBuffer.Buffer.HasWritten | Buffer.h:157-158 | the tail bytes written become readable |
| NetBuffer.Buffer.AppendInt | Buffer.h:163-178 | the content grows by the integer, most significant octet first |
| NetBuffer.Buffer.PeekInt | Buffer.h:209-230 | the integer whose digits to the base 256 are the first octets of the content, the most significant first |
| NetBuffer.Buffer.ReadInt | Buffer.h:184-203 | that integer, and it is dropped |
| NetBuffer.Buffer.PrependInt | Buffer.h:235-250 | the integer, most significant octet first, goes in front of the content |
| NetBuffer.Buffer.Prepend | Buffer.h:252-258 | the bytes go in front of the content, in place |
| NetBuffer.Buffer.ReadFd | Buffer.cpp:12-42 | old content followed by the bytes read, for any number up to the tail plus 65536; on an error the buffer is as it was |
| NetBuffer.Buffer.Scatter | Buffer.cpp:15-22 | the bytes fill the tail first and the extra block with the rest |
| NetBuffer.Buffer.TakeIn | Buffer.cpp:22-36 | however the bytes delivered are divided between tail and extra block, they follow the old content, in order |
| NetBuffer.Buffer.Spill | Buffer.cpp:32-36 | the whole tail becomes readable and the rest is appended behind it |
| NetBuffer.Buffer.MakeSpace | Buffer.h:281-300 | both branches keep the content, and the assert on the reader index follows from the guard |
| NetBuffer.Buffer.Resize | Buffer.h:286 | a larger block with the old bytes in front |
| NetBuffer.SlideDown | Buffer.h:293-295 | the forward copy is right although source and destination overlap |
| NetBuffer.EnsureWritableIsEnough | Buffer.h:142-149 | growing or compacting leaves room for the length and never shrinks the block |
| BufferHistory.CapacityBound | Buffer.h:281-300 | over every history of appends, reads, retrieves and prepends the block is at most max(1032, 2M + 6) bytes, M being the most ever readable |
| BufferHistory.CapacityBoundIsReached | Buffer.h:281-300 | a history that meets this bound, so it cannot be lowered |
| BufferHistory.CheapPrependGuarantee | Buffer.h:252-258 | a history that prepended p bytes still has room for 8 - p more in place |
| BufferHistory.PrependRoomRestored | Buffer.h:101-105 | draining or compacting restores exactly 8 bytes of prepend room |
| BufferHistory.IntegersComeOutInOrder | Buffer.h:163-203 | for any interleaving of appends and reads of 8, 16 and 32 bit integers, those read followed by those still stored are those written, in order and unchanged |
| BufferHistory.PlayOn | Buffer.h:163-203 | appendInt and readInt on a Buffer give what the same calls on its content give, through every compaction and growth |
| BufferHistory.WriteThenRead | Buffer.h:163-203 | integers appended to a Buffer and read in step, however interleaved, come out in order and unchanged, and those unread are its content |
| BufferHistory.PrependThenRead | Buffer.h:235-250 | an integer prepended to a Buffer is what is read next, and the content is then as before |
| BufferHistory.PrependedIsReadFirst | Buffer.h:235-250 | a prepended integer is read first and reading it gives the old content back |
| Codec.OctetIsDigit | SocketOps.h:32-40 | the i-th octet of an integer is its digit of that weight to the base 256, the most significant first (Appendix B of RFC 791) |
| Codec.NetworkOrder | SocketOps.h:37-45 | for one, 0x01020304 travels as 1, 2, 3, 4 |
| Codec.HoldsIsRange | Buffer.h:163-178 | the three widths hold the ranges of the signed types |
| Codec.SignedRoundTrip | SocketOps.h:32-55 | decoding undoes encoding for every value of each width |
| Codec.EncodedOctetsRoundTrip | SocketOps.h:32-55 | encoding undoes decoding for all octets of each width |
| Codec.SignTravelsFirst | SocketOps.h:32-40 | the octet that carries the sign is the first one (Appendix B of RFC 791) |
| ThreadPool.EventLoopThreadPool.GetNextLoop | EventLoopThreadPool.cpp:36-51 | the k-th call returns loop k modulo n, or the base loop if there are none |
| ThreadPool.RoundRobinIsFair | EventLoopThreadPool.cpp:36-51 | in any window of m calls each of n loops is chosen between floor(m/n) and ceil(m/n) times |

## Left out

- System calls and socket set-up (`Socket.cpp`, `SocketOps.cpp`, `InetAddress`, `Acceptor`): replaced by the environment above.
- `TcpServer` as an object: its connection map is never filled and its name never set, so there is nothing it keeps; its part in accepting and removing a connection is a step of `Reactor`, from another thread or on the loop's own.
- Lifetimes: shared and weak pointers, `setTie`, and a descriptor number that is used again after its socket was closed.
- `shutdown` from another thread: the header says it is not thread safe.
- User callbacks: they are steps of the environment that may send, shut down, queue, quit, accept and remove, but do not call `loop` or remove handlers.
- `EventLoop::runInLoop` as a method: on the loop thread it is the call itself, elsewhere `QueueInLoop`; both cases are spelled out where it is used.
- EventLoops.EventLoop.QueueInLoop: says what a call does that nothing interrupts; the steps between its push and its wakeup, with everything other threads do there, are those of LoopProtocol and Reactor.
- EventLoops.EventLoop.LoopOnce: one turn, not the whole of `loop()`, which need not end; all turns together are the runs of LoopProtocol.
- TcpConnections.TcpConnection.HandleEvent: leaves out the user's callbacks between the branches (Reactor has them), and excludes the events whose close would fail the assert of handleClose.
- TcpConnections.TcpConnection.Send: stands for the overloads on a string and on a block of bytes, which differ in nothing but how the bytes are passed.
- TcpConnections.TcpConnection.HandleClose: says what happens when the server shares the loop or not; that the server's thread then queues `connectionDestroyed` is the step Removes of Reactor.
- ReactorFinality.GracefulHalfClose: needs that nothing is on its way at the call, and then also says what is on the wire; the exact condition for nothing to be written afterwards is ShutdownIsGracefulExactly.
- ReactorFinality.OwnSendsHalfCloseGracefully: is about connections that no other thread ever sends on; all others are those of GracefulHalfClose.
- BufferHistory.CapacityBound: is about appends, retrieves, prepends and reads; a bare `ensureWritableBytes` can grow a block that is never filled.
- Appending to a buffer from its own block, and `send(Buffer*)` of the connection's own output buffer: the source would read a block it has just moved.
- The bytes that `buffer_` holds outside the readable region, but for what `prepend` and `hasWritten` make readable.
- Lengths near the limit of `size_t`, C++ data races, the order of memory operations.
- High-water mark (stored, never used), contexts, timestamps, tracing, `Polling` and `pollingserver`, clients and `main`.
