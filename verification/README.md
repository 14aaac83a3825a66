# A verified model of a reactor TCP server

The repository is a TCP server in the muduo style: several event-loop threads, each with its own
epoll poller and functor queue; connections are accepted on a base loop and served on I/O loops.
This project models its five connected components and proves what they promise for every input,
every run and every interleaving.

| component | source | values, steps and theorems | objects changed in place |
|---|---|---|---|
| byte buffer | `src/Buffer.h`, `src/Buffer.cc` | `ByteBuffers` | `BufferObjects` |
| channel and poller | `src/Channel.h`, `src/EPollPoller.cc`, `src/Poller.cc` | `Epoll` | `PollerObjects` |
| connection | `src/TcpConnection.cc`, `src/Channel.cc` | `Connections`, `ConnectionProperties`, `ConnectionStreams`, `ConnectionTheorems`, `ConnectionEffects` | `ConnectionObjects` |
| event loop | `src/EventLoop.cc` | `EventLoops` | `EventLoopObjects` |
| connection life cycle | `src/TcpServer.cc`, `src/TcpConnection.cc` | `Names`, `Lifecycle`, `LifecycleProperties`, `LifecycleTheorems`, `ServerWakeups` | `ServerObjects` |

The class methods follow the source statement by statement and are proved against the functions of
the middle column; the theorems are about those functions, over whole runs. The connection runs on
the buffers of `ByteBuffers` and on the registration of `Epoll`, so a theorem about a connection is
one about all three; and the class `TcpConnection` holds two `Buffer` objects and a `Channel` on a
shared `EPollPoller`, with the invariants of those theorems in its `Valid()`. The `Valid()` of
`TcpServer` holds the life-cycle invariant in the same way. `ConnectionFollowsStages` ties the
connection to its abstraction in `Lifecycle`, `PollerOfServerNeverFatal` ties the connections to a
poller that many of them share, and `ServerWakeups` ties the life cycle to loops that sleep.

## Where the code departs from its intent

Three lines do not do what the code around them needs. They are modelled as written; a parameter
(`AsWritten`/`AsMeant`, `MaskAsWritten`/`MaskAsMeant`) or a second function chooses the evident
intent, and each theorem says which form it is about or holds for both.

- `src/Buffer.h:105` sets the writer index after compaction to old reader index plus `len`; meant is
  `KCheapPrend` plus the readable length. As written an append that compacts corrupts the contents,
  or leaves the vector, except for one length (`AppendAsWritten`, `WrittenIsExactIff`,
  `CompactionLosesBytes`), and so does a connection's output (`ByteStreams`, `OutputOutOfOrder`). A
  buffer that is only ever drained whole, as the echo server's input is, never compacts
  (`DrainOnlyIsExact`).
- `src/Channel.h:48` keeps the write bit and clears the others; meant is the complement. As written a
  connection completes a shutdown if and only if it never buffered output (`ShutdownAsWrittenIff`),
  and goes on reading if and only if buffered output of it never drained (`ReadingAsWrittenIff`);
  `DrainedButNotShut` is a run of four calls that meets both.
- `src/EPollPoller.cc:86` deletes the fd from epoll without storing `kDeleted`, so a later enable is
  an EPOLL_CTL_MOD of an unregistered fd and reaches LOG_FATAL. `FatalIffMisuse` gives the exact
  condition, `ReenablingIsFatal` the shortest input, and `ConnectionNeverFatal` shows that no
  connection gets there. With the value stored no poller does (`PollerNeverFatalAsMeant`), but
  `removeChannel` would have to erase the table entry at `kDeleted` too (`RemoveLeavesEntryIff`).

One more property is false in general: a mask with EPOLLHUP and EPOLLPRI and without EPOLLIN can run
`handleClose` twice in one dispatch (`DoubleCloseHappens`). `CallbackCounts` says exactly when the
callbacks are made once.

## Assumptions

- `shutdown` is called on the connection's loop thread, as the comment at `src/TcpConnection.cc:130` says.
- The server outlives its connections, so `connectionDestroyed` comes after `handleClose`, or on a
  connection that is still connected.
- Live channels have distinct fds, and `accept4` returns an fd that no unfinished connection holds.
- `epoll_wait` reports each fd at most once a call, and only registered fds.
- In the life cycle one dispatch closes a connection at most once, which `CallbackCounts` gives for
  every mask but the one above.
- System calls are parameters under the contract of their manual page: `write` takes at most what it is
  offered and fails with EPIPE, or ECONNRESET after a reset, once the write side is shut, `readv` delivers at most what it is offered
  and fills the areas in order, an eventfd counts writes and is read down to zero, EPOLL_CTL_ADD and
  EPOLL_CTL_MOD fail on a registered and an unregistered fd.
- SIGPIPE is ignored by the application. The source does not do so itself, and without it the late
  sends that `LateWritesAreLateSends` counts would end the process instead of failing with EPIPE.
- LOG_FATAL halts. Messages are values.

## Model

| member | source | states |
|---|---|---|
| `ByteBuffers.NewBuf` | src/Buffer.h:22-26 | a new buffer is valid, empty and has its initial size writable |
| `ByteBuffers.RetrieveDrops` | src/Buffer.h:57-73 | retrieve drops the given number of readable bytes from the front, or all of them when asked for more |
| `ByteBuffers.MakeSpaceAsMeant` | src/Buffer.h:92-107 | as meant, both branches keep the readable bytes and leave at least len writable |
| `ByteBuffers.CompactionAsWritten` | src/Buffer.h:98-106 | as written, the compaction branch leaves reader + len - 8 readable bytes, and the contents survive if and only if len is readable - reader + 8 |
| `ByteBuffers.AppendAsMeant` | src/Buffer.h:109-114 | append as meant stays inside the vector and is the append of a byte queue |
| `ByteBuffers.AppendAsWritten` | src/Buffer.h:85-114 | append as written is the queue append if and only if it does not compact or compacts with the one right length; and exactly when it writes past the vector |
| `ByteBuffers.CompactionLosesBytes` | src/Buffer.h:105 | a run from a new buffer of the initial size: append 1000 bytes, retrieve 500, append 100, and as written the contents are no longer those of the queue |
| `ByteBuffers.ReadFdAsMeant` | src/Buffer.cc:7-34 | readFd as meant appends exactly the bytes readv delivered, wherever they fell between tail and extra area; a failed read changes nothing |
| `ByteBuffers.ReadLimits` | src/Buffer.cc:9-18 | one read can always deliver 64 KB, never more than that and the free tail, and only the free tail when that is 64 KB or more; 66560 bytes into a new buffer |
| `ByteBuffers.StepAsMeant` | src/Buffer.h:57-114 | every operation as meant simulates the same operation of a byte queue |
| `ByteBuffers.BufferRefinesQueue` | src/Buffer.h:57-114 | as meant, every run of append, retrieve, retrieveAll and readFd from any valid buffer refines a byte queue |
| `ByteBuffers.ExactStepIffHarmless` | src/Buffer.h:85-114 | one operation as written simulates the queue if and only if it does not compact, or appends the one length (also inside readFd) for which compaction is right |
| `ByteBuffers.WrittenIsExactIff` | src/Buffer.h:85-114 | a run as written follows the queue at every step if and only if no operation in it compacts with a wrong length |
| `ByteBuffers.DrainOnlyIsExact` | src/Buffer.h:69-114 | as written, when every retrieval empties the buffer, no operation of the run takes the compaction branch, the reader index stays at 8 and the run is an exact byte queue |
| `ByteBuffers.CapacityBound` | src/Buffer.h:92-114 | over every run as meant the vector never exceeds the larger of its first size and P + 2L + 7 |
| `ByteBuffers.CapacityBoundIsTight` | src/Buffer.h:92-97 | for every positive P and L the bound P + 2L + 7 is reached by a run from a new, smaller buffer whose appends stay within P and L |
| `ByteBuffers.CapacityBoundOfEmpty` | src/Buffer.h:69-107 | for P = 0 the bound is sharper: when every append finds the buffer empty, which has its indices at 8, the vector never exceeds the larger of its first size and 8 + L |
| `ByteBuffers.CapacityBoundOfEmptyIsTight` | src/Buffer.h:92-97 | and 8 + L is reached for every positive L by the first append to a buffer made without room |
| `BufferObjects.CopyDown` | src/Buffer.h:101-103 | the overlapping in-place copy towards the front moves the old bytes and nothing else |
| `BufferObjects.CopyIn` | src/Buffer.h:112 | the copy of outside bytes replaces exactly their target range |
| `BufferObjects.Buffer.constructor` | src/Buffer.h:22-26 | the object starts as an empty buffer of 8 + initial size |
| `BufferObjects.Buffer.ReadableBytes` | src/Buffer.h:28-31 | the number returned is the length of the contents |
| `BufferObjects.Buffer.RetrieveAll` | src/Buffer.h:69-73 | both indices go back to 8 and the array is untouched |
| `BufferObjects.Buffer.Retrieve` | src/Buffer.h:57-67 | drops bytes from the front as RetrieveDrops says, and the array is untouched |
| `BufferObjects.Buffer.RetrieveAllAsString` | src/Buffer.h:74-83 | the string returned is the old contents, and the buffer is left empty |
| `BufferObjects.Buffer.MakeSpace` | src/Buffer.h:92-107 | growth and in-place compaction on the array refine ByteBuffers.MakeSpace in both forms |
| `BufferObjects.Buffer.EnsureWritableBytes` | src/Buffer.h:85-91 | space is made only when there is too little |
| `BufferObjects.Buffer.Append` | src/Buffer.h:109-114 | succeeds exactly when the copy stays inside the vector, and is then the append of ByteBuffers in either form; as meant it always succeeds and the contents grow by the bytes |
| `BufferObjects.Buffer.ReadFd` | src/Buffer.cc:7-34 | the two-part read on the array: count or -1, success exactly when the inner append stays inside the vector, and then the readFd of ByteBuffers; as meant always, with exactly the received bytes added |
| `BufferObjects.Buffer.WriteFd` | src/Buffer.cc:36-44 | the bytes that go out are the first readable ones, and the buffer does not change |
| `Epoll.InterestLaws` | src/Channel.h:45-49 | enabling one direction keeps the other; disabling takes back exactly what enabling gave, except that disableWriting as written takes everything but the write bit |
| `Epoll.FatalIffMisuse` | src/EPollPoller.cc:67-149 | over any operations on one channel LOG_FATAL is reached if and only if interest is given after it was cleared while added with no remove between; until then index, events and kernel entry are determined by the operations and agree |
| `Epoll.ReenablingIsFatal` | src/EPollPoller.cc:84-91 | enabling, clearing and enabling again reaches LOG_FATAL, in both forms of disableWriting |
| `Epoll.NeverFatalAsMeant` | src/EPollPoller.cc:71-92 | with kDeleted stored after the DEL no sequence of operations reaches LOG_FATAL, and the kernel entry exists exactly when the index is kAdded |
| `Epoll.ChannelsAreIndependent` | src/EPollPoller.cc:67-107 | with distinct fds an operation moves its own channel as if it were alone, leaves what all other channels see, and keeps table, index and kernel set in agreement |
| `Epoll.ProjectionStep` | src/EPollPoller.cc:67-107 | one step of the shared poller keeps every channel where its own operations alone put it, and is fatal exactly on a misuse of its channel |
| `Epoll.PollerFatalIffMisuse` | src/EPollPoller.cc:67-149 | over every run of a poller with any number of channels and reused fds, LOG_FATAL is reached if and only if some channel was misused; otherwise hasChannel holds exactly at index kAdded, kDeleted is never stored and every kernel entry is in the table with its channel's events |
| `Epoll.PollerNeverFatalAsMeant` | src/EPollPoller.cc:71-92 | with kDeleted stored, no run of a poller with any number of channels and reused fds reaches LOG_FATAL; a channel is in the kernel set exactly at kAdded, with its events, and in channels_ unless it is at kNew |
| `Epoll.RemoveLeavesEntryIff` | src/EPollPoller.cc:101-106 | what storing kDeleted would need besides: removeChannel always leaves the channel at kNew, and leaves its entry in channels_ exactly when it was at kDeleted |
| `PollerObjects.Channel.constructor` | src/Channel.cc:12-29 | a channel starts without interest and with index kNew |
| `PollerObjects.Channel.Apply` | src/Channel.h:45-49 | enable, disable and remove take their channel through RegStep, keep every other channel as it was and keep the poller valid unless fatal |
| `PollerObjects.EPollPoller.constructor` | src/EPollPoller.cc:18-26 | a new poller has no channel, an event list of 16, and its three copies agree |
| `PollerObjects.EPollPoller.HasChannel` | src/Poller.cc:10-14 | the lookup answers exactly whether the index is kAdded |
| `PollerObjects.EPollPoller.UpdateChannel` | src/EPollPoller.cc:67-93 | the channel goes through Update, the others see no change, and validity is restored after the channel's events were changed |
| `PollerObjects.EPollPoller.RemoveChannel` | src/EPollPoller.cc:94-107 | never fatal; the channel is unregistered in all three places, the others see no change |
| `PollerObjects.EPollPoller.Poll` | src/EPollPoller.cc:31-60 | the active list is what the kernel reported, in order and with its masks, all members at kAdded; the event list doubles exactly when it was full; fatal exactly on an error other than EINTR |
| `ConnectionProperties.StepKeepsControl` | src/TcpConnection.cc:66-231 | every call that reaches a connection keeps state_, channel, kernel entry, write interest and shutdown history in agreement |
| `ConnectionProperties.RunKeepsControl` | src/TcpConnection.cc:66-231 | so does every run |
| `ConnectionProperties.DisconnectedIgnoresUser` | src/TcpConnection.cc:222-231 | sends and shutdowns made inside the DOWN callback change nothing |
| `ConnectionProperties.EventCloses` | src/Channel.cc:71-102 | one dispatch moves DOWN and close counts by exactly the number of times its mask and read result run handleClose, leaves a connection disconnected exactly then, and sends nothing on a shut socket |
| `ConnectionProperties.NoWriteAfterClose` | src/Channel.cc:95-101 | handleWrite dispatched after handleClose in the same event changes nothing |
| `ConnectionProperties.StepEffects` | src/TcpConnection.cc:66-231 | what any call may do to the socket, the shutdown history and the callback counts, and that only a queued send ever writes to a shut socket |
| `ConnectionStreams.StepKeepsData` | src/TcpConnection.cc:66-231 | every call keeps both byte streams and the high-water history exact, unless an append compacts as written |
| `ConnectionStreams.RunKeepsData` | src/TcpConnection.cc:66-231 | so does every run |
| `ConnectionTheorems.ConnectionNeverFatal` | src/TcpConnection.cc:66-231 | no run of a connection, in either form of disableWriting, makes epoll_ctl reach LOG_FATAL, and the operations it makes contain no misuse |
| `ConnectionTheorems.PollerOfServerNeverFatal` | src/EPollPoller.cc:67-149 | a poller shared by a wakeup channel, an acceptor that listens any number of times and any number of connections never reaches LOG_FATAL, and its three copies agree in every run |
| `ConnectionTheorems.GracefulShutdown` | src/TcpConnection.cc:107-148 | in every run unfinished output implies isWriting until kDisconnected, and shutdownWrite is called at most once and with the output buffer empty |
| `ConnectionTheorems.LateWritesAreLateSends` | src/TcpConnection.cc:49-64 | write calls after shutdownWrite number exactly the sends other threads had queued that ran between it and the close |
| `ConnectionTheorems.NothingSentAfterShutdown` | src/TcpConnection.cc:141-148 | from shutdownWrite on, in every continuation, the socket takes no byte, and write is called only by those late sends |
| `ConnectionTheorems.LoopThreadSendsAreNeverLate` | src/TcpConnection.cc:49-64 | with sends on the loop thread only there are no late sends |
| `ConnectionTheorems.ShutdownCompletesAsMeant` | src/TcpConnection.cc:189-220 | with disableWriting as meant isWriting is exactly pending output until the close, and a disconnecting connection has shut its write side exactly when nothing is pending |
| `ConnectionTheorems.DrainShutsAsMeant` | src/TcpConnection.cc:195-209 | the handleWrite that drains a disconnecting connection sends the rest and shuts the write side in the same call, for the first time |
| `ConnectionTheorems.NoShutdownOnceBufferedAsWritten` | src/Channel.h:47-50 | the lasting half of ShutdownAsWrittenIff, for live and closed connections: once output was buffered, no continuation adds a shutdownWrite, and isWriting stays true until the close |
| `ConnectionTheorems.ShutdownAsWrittenIff` | src/TcpConnection.cc:141-148 | as written, in every run: isWriting is exactly that output was ever buffered; a disconnecting connection has shut its write side if and only if none was; a connected one has a continuation that shuts it if and only if none was |
| `ConnectionTheorems.DrainedButNotShut` | src/TcpConnection.cc:195-209 | one concrete run from the constructor (a byte buffered, shutdown, the byte drained): the write side is shut exactly as meant, read interest is lost exactly as written |
| `ConnectionTheorems.DrainAndReadInterest` | src/Channel.h:47-50 | a drain leaves write interest without read interest as written, and read interest without write interest as meant |
| `ConnectionTheorems.ReadingStopsAsWritten` | src/Channel.h:47-50 | the received bytes in the lasting half of ReadingAsWrittenIff: from the drain of buffered output on, no continuation whose reports follow the registered events receives a byte |
| `ConnectionTheorems.ReadingAsWrittenIff` | src/Channel.h:47-50 | as written, in every run a live connection has lost read interest if and only if buffered output of it has drained, and exactly then no continuation that epoll_wait allows calls handleRead again |
| `ConnectionTheorems.ByteStreams` | src/TcpConnection.cc:66-126 | in every run both streams are in order, inside their vectors, after every append and read if and only if compaction is as meant or every append and read that compacted had the one right length (so in a run that never compacts); then bytes sent and readable output are the accepted messages in order, bytes consumed and readable input are the bytes received |
| `ConnectionTheorems.OutputOutOfOrder` | src/TcpConnection.cc:107-125 | a concrete run from the constructor (1000 bytes buffered, 500 drained by handleWrite, 100 more sent): the output is still what was accepted exactly when compaction is as meant |
| `ConnectionTheorems.AcceptedWholeOrDropped` | src/TcpConnection.cc:66-126 | a send, on the loop thread or queued, is accepted whole; or, when disconnected, or when idle output meets EPIPE or ECONNRESET, it changes neither socket, buffer nor queue |
| `ConnectionTheorems.IdleSendIsWritten` | src/TcpConnection.cc:80-91 | with no write interest and nothing buffered the message goes to the socket at once: what it takes is sent; taken whole, nothing is buffered and the channel is untouched; the rest is buffered with write interest |
| `ConnectionTheorems.RefusedSendIsBuffered` | src/TcpConnection.cc:92-125 | a message the idle socket refuses is buffered whole, unless the error says that the peer is gone |
| `ConnectionTheorems.BusySendIsBuffered` | src/TcpConnection.cc:80-125 | with write interest or output buffered the socket is left alone and the message goes behind the buffered output |
| `ConnectionTheorems.WriteCompleteIffAllSent` | src/TcpConnection.cc:83-91 | a send on idle output, or a handleWrite, in which the socket took something queues the write-complete callback exactly when everything accepted so far has been sent |
| `ConnectionTheorems.HighWaterIsCrossings` | src/TcpConnection.cc:112-120 | the high-water callbacks of a run, in order and with their sizes, are exactly the upward crossings of the mark by the buffered length |
| `ConnectionTheorems.CrossingsNeedADrop` | src/TcpConnection.cc:113-119 | while the length stays at or above the mark there is no further crossing, so between two callbacks it was below |
| `ConnectionTheorems.ClosedIsFinal` | src/TcpConnection.cc:222-231 | after the close nothing is dispatched and no callback count moves, whatever follows |
| `ConnectionTheorems.CallbackCounts` | src/Channel.cc:71-102 | every run makes at most one UP; at most one DOWN and one close if and only if no dispatch closes twice, which holds whenever no mask has HUP and PRI without IN; then the counts are those of the state |
| `ConnectionTheorems.DoubleCloseHappens` | src/Channel.cc:74-94 | a concrete run with such a mask makes two DOWN callbacks |
| `ConnectionEffects.MessageCallbackRuns` | src/TcpConnection.cc:170-177 | a report with EPOLLIN or EPOLLPRI and bytes runs the message callback, whatever it does, once, on the connection as the read left it |
| `ConnectionEffects.WriteCallbackRuns` | src/Channel.cc:95-101 | EPOLLOUT writes last, from the output that the rest of the report has left, and only if the connection is then writing |
| `ConnectionEffects.ConnectionCallbackRuns` | src/TcpConnection.cc:150-156 | the connection callback runs once the connection is connected and counted UP |
| `ConnectionEffects.CallbackInSequence` | src/TcpConnection.cc:176 | a callback does what it does one thing after another, all of it |
| `ConnectionEffects.SendFromAnyThread` | src/TcpConnection.cc:49-64 | while connected a send does the same on the loop thread as queued by another thread; while not, user code sends nothing and changes nothing |
| `ConnectionEffects.TakenIsConsumed` | src/Buffer.h:57-83 | what user code retrieves is taken from the front of the input, no more than there is, and the rest stays |
| `ConnectionEffects.WriteMovesOutput` | src/TcpConnection.cc:189-220 | handleWrite moves exactly what the socket took from the front of the output buffer to the socket; when it took nothing, or the connection is not writing, nothing changes |
| `ConnectionEffects.ReadIsReceived` | src/TcpConnection.cc:170-188 | a report with EPOLLIN or EPOLLPRI receives exactly the bytes readv delivered, and no other report receives any |
| `ConnectionEffects.ReadsAreReceived` | src/TcpConnection.cc:170-188 | nothing read is lost: over every run as meant, what user code consumed followed by the readable input is what all reads of the run delivered, in order; as written the bytes received are, as long as no copy leaves its vector |
| `ConnectionEffects.TakingAllConsumesAll` | example/test_server.cc:38-43 | a message callback that retrieves everything leaves the input empty and has consumed all that was ever received |
| `ConnectionEffects.AnswerIsAccepted` | example/test_server.cc:38-43 | a message callback that answers has its answer accepted, unless the peer is found gone |
| `ConnectionObjects.TcpConnection.constructor` | src/TcpConnection.cc:16-42 | a connection starts valid: kConnecting, its own two empty buffers, and a new channel unknown to the poller it shares |
| `ConnectionObjects.TcpConnection.SendInLoop` | src/TcpConnection.cc:66-126 | on the real buffer, channel and poller: keeps the connection's invariant, does the step of Connections, and leaves what every other channel sees of the poller alone; stops only where an append as written leaves its vector |
| `ConnectionObjects.TcpConnection.BufferRemaining` | src/TcpConnection.cc:107-125 | its tail: high-water test on the old length, append, write interest only if not already there |
| `ConnectionObjects.TcpConnection.ShutdownInLoop` | src/TcpConnection.cc:141-148 | given that pending output is being waited for, the write side is newly shut only with the output buffer empty, and nothing is sent |
| `ConnectionObjects.TcpConnection.Shutdown` | src/TcpConnection.cc:128-138 | keeps the invariant; changes nothing unless connected; never shuts with output left, and as meant shuts at once exactly when none is left |
| `ConnectionObjects.TcpConnection.ConnectionEstablished` | src/TcpConnection.cc:150-156 | from kConnecting: keeps the invariant, the poller's table and kernel set hold the channel with read interest, and this is the first and only UP; other channels are untouched |
| `ConnectionObjects.TcpConnection.ConnectionDestroyed` | src/TcpConnection.cc:158-168 | keeps the invariant and leaves the fd in neither the poller's table nor the kernel set; DOWN is added exactly if no close came before; other channels are untouched |
| `ConnectionObjects.TcpConnection.Destruct` | src/TcpConnection.cc:44-47 | after connectionDestroyed the connection can go: the poller stays valid without its channel, no channel left has its fd, and the others are untouched |
| `ConnectionObjects.TcpConnection.HandleRead` | src/TcpConnection.cc:170-188 | on the real input buffer: message callback due exactly on a positive read, close exactly on end of stream, invariant kept |
| `ConnectionObjects.TcpConnection.HandleWrite` | src/TcpConnection.cc:189-220 | on the real output buffer, channel and poller: keeps the invariant, does the step of Connections and leaves other channels alone; it never breaks and never reaches LOG_FATAL |
| `ConnectionObjects.TcpConnection.HandleClose` | src/TcpConnection.cc:222-231 | keeps the invariant; out of the kernel set but still in the poller's table until connectionDestroyed; one DOWN and one close; buffers, socket and other channels untouched |
| `ConnectionObjects.TcpConnection.Act` | src/TcpConnection.cc:49-64 | send, shutdown or retrieve by user code on the loop thread keeps the invariant; send does something only while connected |
| `ConnectionObjects.TcpConnection.HandleEvent` | src/Channel.cc:71-102 | the callbacks of one report, on the objects, in order: the dispatch of Connections, with the invariant kept and every other channel of the poller untouched |
| `ConnectionObjects.TcpConnection.BystanderKept` | src/EPollPoller.cc:67-107 | whatever one connection did under such a contract, another valid connection on the same poller is still valid and the same |
| `EventLoops.StepKeepsInv` | src/EventLoop.cc:53-155 | every action of every thread keeps flags, announcements, quit and functor conservation |
| `EventLoops.RunKeepsInv` | src/EventLoop.cc:53-155 | so does every interleaving |
| `EventLoops.NoLostWakeup` | src/EventLoop.cc:100-120 | in every interleaving, a loop about to poll with a functor pending that its own thread did not queue outside loop() finds the eventfd readable or a thread between push and wakeup |
| `EventLoops.StrayPushIsLost` | src/EventLoop.cc:107-110 | the exception is real: a functor the loop thread queued before loop() is slept on |
| `EventLoops.BlockedMeansIdle` | src/EventLoop.cc:53-120 | a loop blocked in poll with no call in flight has no quit outstanding and has started all it was given but such functors |
| `EventLoops.FunctorsAreConserved` | src/EventLoop.cc:100-155 | executed functors, the rest of the batch and the pending ones are everything queued, in push order, so functors start in push order and each once; a functor runs in the next batch taken after it was queued |
| `EventLoops.BatchIsFixed` | src/EventLoop.cc:142-155 | whatever is queued meanwhile, doPendingFunctors starts a prefix of the batch it took, so it ends when those functors do |
| `EventLoops.PromptQuit` | src/EventLoop.cc:53-86 | once quit_ is set, and until loop() is entered anew, the loop polls at most once more, with the eventfd readable or its wakeup in flight |
| `EventLoops.QuitIsRemembered` | src/EventLoop.cc:53-86 | over every run, quit_ is set exactly if some thread has called quit since loop() was last entered, which clears it |
| `EventLoops.WakeupAddsOne` | src/EventLoop.cc:112-141 | the eventfd goes up by one exactly at a wakeup, by another thread or after a push made while functors run, goes to zero exactly at a read, and moves at no other step |
| `EventLoops.CounterCountsWakeups` | src/EventLoop.cc:112-120 | over every run without a read, k wakeups leave the eventfd k higher, or at its maximum |
| `EventLoops.PolledWakeupIsRead` | src/EventLoop.cc:65-73 | a wakeup that poll has reported is read before the pending functors are taken |
| `EventLoopObjects.EventLoop.constructor` | src/EventLoop.cc:24-44 | the loop starts in the initial state of the step system |
| `EventLoopObjects.EventLoop.Wakeup` | src/EventLoop.cc:112-120 | the eventfd counter goes up by one below 2^64 - 2, and stays there at it |
| `EventLoopObjects.EventLoop.QueueFromOther` | src/EventLoop.cc:100-111 | another thread's queueInLoop is push then wakeup |
| `EventLoopObjects.EventLoop.QueueFromLoop` | src/EventLoop.cc:100-111 | the loop thread's queueInLoop wakes only while functors are being called |
| `EventLoopObjects.EventLoop.QuitFromOther` | src/EventLoop.cc:78-86 | another thread's quit sets the flag, then wakes |
| `EventLoopObjects.EventLoop.QuitFromLoop` | src/EventLoop.cc:78-86 | the loop thread's quit only sets the flag |
| `EventLoopObjects.EventLoop.HandleRead` | src/EventLoop.cc:133-141 | the wakeup is read down to zero |
| `EventLoopObjects.EventLoop.DoPendingFunctors` | src/EventLoop.cc:142-155 | exactly the functors pending at the start are started, in order, even if one calls quit; exactly what they queue is pending afterwards |
| `EventLoopObjects.EventLoop.Iterate` | src/EventLoop.cc:58-74 | one turn starts what was pending, what others queued during the poll and what its handlers queued, in this order; quit_ is set if another thread, a handler or a functor of the turn called quit |
| `EventLoopObjects.EventLoop.Loop` | src/EventLoop.cc:53-77 | the imperative loop makes the turns of LoopRun and starts its functors; an earlier quit is forgotten |
| `EventLoopObjects.LoopLeavesOnQuit` | src/EventLoop.cc:53-86 | loop() is left exactly when another thread, a handler or a started functor called quit, and makes all its turns otherwise; no turn before the last has a call by another thread or a handler |
| `EventLoopObjects.LoopLeavesInTurnOfQuit` | src/EventLoop.cc:58-74 | no fewer turns would have left it, so nobody had called quit before its last turn, by any means; in that turn somebody does, and all functors of that turn are started after those of the earlier turns |
| `Names.DecimalRoundTrip` | src/TcpServer.cc:64 | decimal formatting can be read back |
| `Names.IpPortLength` | src/InetAddress.cc:18-28 | the ip:port text of any IPv4 endpoint has at most 21 characters |
| `Names.SuffixFits` | src/TcpServer.cc:63-64 | for every id an int can hold the formatted suffix is not cut at 64 bytes |
| `Names.NamesAreUnique` | src/TcpServer.cc:63-66 | until the id counter overflows two names are equal if and only if the ids are |
| `Names.NameReadsBack` | src/TcpServer.cc:63-66 | for every id an int can hold the name begins with the server's name, and the rest reads back to the four octets in order, the port and the id, with the separators of the format |
| `LifecycleProperties.StepKeepsInv` | src/TcpServer.cc:59-113 | every action of every loop keeps stages, map, queues, hand-offs, active lists and fds in agreement |
| `LifecycleProperties.RunKeepsInv` | src/TcpServer.cc:59-113 | so does every interleaving of any number of loops and connections |
| `LifecycleTheorems.HistoryIsBeginningOfLife` | src/TcpConnection.cc:150-168 | the histories that have a stage are exactly the non-empty prefixes of accepted, established, any number of events, closed, erased, destroyed |
| `LifecycleTheorems.LifecycleIsOrderly` | src/TcpServer.cc:59-113 | in every reachable world each connection's history is such a prefix, and state_, channel index, registration and map membership are those of its stage |
| `LifecycleTheorems.UnfinishedIsReferenced` | src/TcpServer.cc:99-113 | an unfinished connection is in the map, in a queued connectionDestroyed or in the hands of the base loop, and its next step is queued or about to be |
| `LifecycleTheorems.AcceptIsPossible` | src/TcpServer.cc:59-97 | up to id 2147483647 a connection can be accepted for any loop with any fd that no undestroyed connection holds |
| `LifecycleTheorems.AcceptedIsEntered` | src/TcpServer.cc:59-97 | an accepted connection is new, on the loop chosen for it and in the map, which has one entry more; its establishment is owed; no other connection changes |
| `LifecycleTheorems.HandOffIsMade` | src/TcpServer.cc:95-113 | connectionEstablished and removeConnectionInLoop take effect at once on their own loop and are queued last on another; connectionDestroyed is queued last on the connection's loop |
| `LifecycleTheorems.FunctorDoesItsWork` | src/EventLoop.cc:150-153 | a life-cycle functor, when it is run, establishes, erases or destroys its own connection and no other, and is gone from the batch |
| `LifecycleTheorems.ShutdownDisconnects` | src/TcpConnection.cc:128-138 | shutdown of a connected connection leaves it disconnecting and changes nothing else of the world |
| `LifecycleTheorems.QueuedUntilRun` | src/EventLoop.cc:100-111 | no step of any thread loses a queued life-cycle functor except the one that runs it |
| `LifecycleTheorems.RemovalIsDeferred` | src/TcpServer.cc:105-113 | a channel leaves its poller only by connectionDestroyed run as a functor on its own loop, never while that loop iterates activeChannels_ |
| `LifecycleTheorems.ActiveChannelsAreAlive` | src/EventLoop.cc:65-68 | everything a loop has still to dispatch is distinct, its own, registered, at kAdded and in the map |
| `LifecycleTheorems.ReportedAreDispatched` | src/EventLoop.cc:65-73 | after a poll that reported some channels, k dispatches leave exactly the channels after the first k, in order, whatever any thread does, and the functors are taken only when all have been dispatched |
| `LifecycleTheorems.DispatchHandlesFirst` | src/EventLoop.cc:65-68 | a dispatch is of the first channel left; one that closes leaves its connection disconnected, out of the kernel set and its removal owed; no other connection changes |
| `LifecycleTheorems.TableIsExact` | src/TcpServer.cc:87-108 | connections_ holds exactly the accepted connections not yet removed, under their own names, and a new one never overwrites an entry |
| `LifecycleTheorems.LoopsAreNeverStuck` | src/EventLoop.cc:58-74 | in every reachable world the next piece of work of every loop thread is defined |
| `LifecycleTheorems.ConnectionFollowsStages` | src/TcpConnection.cc:150-231 | every call on a full connection moves it between the stages of the life cycle as the abstraction says |
| `ServerWakeups.SystemStepKeepsInv` | src/EventLoop.cc:53-155 | with every loop's eventfd and flags beside the life cycle, each step of any thread keeps both invariants and keeps queues, batches and phases of the two in agreement |
| `ServerWakeups.SystemRunKeepsInv` | src/EventLoop.cc:53-155 | so does every interleaving |
| `ServerWakeups.ItemsDetermineFunctors` | src/EventLoop.cc:100-111 | what an event loop holds as pending or as its batch tells exactly which life-cycle functors are queued there, and in which order |
| `ServerWakeups.LifecycleWorkIsAnnounced` | src/EventLoop.cc:100-120 | in every reachable system a loop about to poll with connectionEstablished, removeConnectionInLoop or connectionDestroyed queued finds its eventfd readable or a thread between push and wakeup |
| `ServerWakeups.AsleepMeansSettled` | src/TcpServer.cc:59-113 | no connection is stranded: whenever all loops sleep with no call in flight, every connection ever accepted is established, registered and in the map, or wholly destroyed |
| `ServerWakeups.SystemNeverStuck` | src/EventLoop.cc:53-155 | no deadlock: in every reachable system every loop thread has a step it can make now, its next work or a wakeup it still owes |
| `ServerObjects.TcpServer.constructor` | src/TcpServer.cc:15-30 | a server starts valid, with no connection and id 1 |
| `ServerObjects.TcpServer.RunEstablished` | src/TcpServer.cc:95-96 | keeps the life-cycle invariant; afterwards the connection is established, when its loop is the base loop, or else its establishment is queued on its loop, never both |
| `ServerObjects.TcpServer.NewConnection` | src/TcpServer.cc:59-97 | keeps the life-cycle invariant; the new entry has a name that begins with the server's and that no other entry has, and every other entry stays; the call is the accept step and its hand-off |
| `ServerObjects.TcpServer.RemoveConnection` | src/TcpServer.cc:99-103 | keeps the life-cycle invariant; on the base loop the entry is gone at once, from any other loop nothing changes but the base loop's queue |
| `ServerObjects.TcpServer.RemoveConnectionInLoop` | src/TcpServer.cc:105-113 | keeps the life-cycle invariant, run as a functor or at once: the entry was there and is gone, every other entry stays, and the destruction is queued last on the connection's loop, never run in place |

## Left out

- Socket, Acceptor and the rest of InetAddress: thin wrappers of system calls; only the acceptor's channel operations and the ip:port text are used.
- Logger and Timestamp: output formatting.
- Thread, CurrentThread and EventLoopThread: start-up of threads; each loop has one owner thread.
- EventLoopThreadPool: the round-robin index is easy; any loop may be chosen for a new connection.
- Lifetime of the string pointer captured by a cross-thread send (src/TcpConnection.cc:59-61) and of raw this bindings: messages and connections are values here.
- Destruction of the server during live traffic (src/TcpServer.cc:32-43), which skips the DOWN callback of connections in kDisconnecting.
- shutdown called from other threads: documented as for the loop thread only.
- Errors of epoll_ctl other than a registration mismatch, errors of epoll_create1 and eventfd, and exceptions from user callbacks.
- Allocation failure and wrap-around of size_t: lengths are unbounded; the id counter is followed up to INT_MAX.
- Fairness and real time: that a queued functor is run in the end needs a scheduler that runs the loop; the 10-second poll timeout only adds polls.
- Buffer::retrieveAsString with a length beyond the readable bytes, which reads outside the contents; only retrieveAllAsString is modelled.
- Weak-pointer tie of Channel (src/Channel.cc:57-69): the guard always succeeds here, since UnfinishedIsReferenced shows the connection is held.
- handleError (src/TcpConnection.cc:232-246): it only reads the socket error and logs.
- ConnectionObjects.TcpConnection.SendInLoop: the error of a write to a shut socket is EPIPE or ECONNRESET; another pending socket error, after which the source would buffer the message, is not modelled.
- EventLoopObjects.EventLoop.Loop: the object is run for a finite sequence of turns and without interference inside a call; the interleavings are in EventLoops.
- ServerObjects.TcpServer.NewConnection: the connections and loops it hands work to are the ghost world of Lifecycle, not TcpConnection and EventLoop objects.
- PollerObjects.EPollPoller.Poll: the poller's class is in the form as written of src/EPollPoller.cc:86 only; the form that stores kDeleted is modelled on values.
